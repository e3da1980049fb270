/**
 * The message shown when a generation fails: the thrown value's own message when it is an
 * `Error`, a fixed sentence otherwise.
 */
module Failure {

  /** What the generation call can reject with: an `Error` (or a subclass) or any other value. */
  datatype Thrown = ErrorValue(message: string) | NonError

  const Fallback := "Ocurrió un error inesperado."

  /** `err instanceof Error ? err.message : 'Ocurrió un error inesperado.'` */
  function ErrorMessage(t: Thrown): (m: string)
    ensures t.ErrorValue? ==> m == t.message
    ensures t.NonError? ==> m == Fallback
  {
    match t
    case ErrorValue(message) => message
    case NonError => Fallback
  }

  /**
   * The error box is drawn when the message is non-empty: after every failure except an
   * `Error` whose message is empty, which is passed through as it is and so shows nothing.
   */
  lemma ErrorBoxShown(t: Thrown)
    ensures ErrorMessage(t) != "" <==> !(t.ErrorValue? && t.message == "")
  {
  }
}
