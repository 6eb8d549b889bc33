/** The few JavaScript values the component runtime stores without inspecting them. */
module Js {

  /** Identity of a JavaScript function value (a hook callback, a validator). */
  type FunctionId = nat

  /**
   * A JavaScript value as stored in a prop or an options object: `null`, a
   * string (what `attributeChangedCallback` receives) or any other value,
   * known only by its identity.
   */
  datatype Value = Null | Str(s: string) | Other(id: nat)
}
