/** Small shared vocabulary: optional values, the two sender roles, timestamps. */
module Common {

  /** A value that may be absent (`undefined` / `null` on the JavaScript side). */
  datatype Option<+T> = None | Some(value: T)

  /** The two kinds of participant: staff ("admin") and guests ("user"). */
  datatype Role = Admin | User

  /** Instants, standing in for `new Date()` / `Date.now`; the caller supplies them. */
  type Timestamp = nat

  /** The role on the other side of the conversation. */
  function Opposite(r: Role): (o: Role)
    ensures o != r
  {
    if r == Admin then User else Admin
  }

  lemma OppositeInvolutive(r: Role)
    ensures Opposite(Opposite(r)) == r
  {
  }

  /** JavaScript truthiness of an optional string: present and not the empty string. */
  predicate Truthy(s: Option<string>)
  {
    s.Some? && s.value != ""
  }
}
