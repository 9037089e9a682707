/**
 * The result shapes of a Replicate `run` call as the audio and video routes inspect
 * them, and the normalisation both routes apply:
 * `typeof output === 'string' ? output : output?.<key> || output?.[0]`.
 */
module Replicate {
  import opened Wrappers
  import opened Web

  /**
   * A model's output: a bare string, an object or array (its string-valued keys and
   * its element 0, if any), or null/undefined.
   */
  datatype ModelOutput = Text(url: string) | Record(fields: map<string, string>, first: Option<string>) | Nothing

  /** A `run` call either resolves to an output or throws. */
  datatype RunOutcome = Output(out: ModelOutput) | RunError(message: string)

  /** `output?.<key>` */
  function Field(out: ModelOutput, key: string): Option<string> {
    if out.Record? && key in out.fields then Some(out.fields[key]) else None
  }

  /** The locator a route takes from an output, looking under `key` first and at element 0 second. */
  function Normalise(out: ModelOutput, key: string): (r: Option<string>)
    // a string output is used as it is, even when empty
    ensures out.Text? ==> r == Some(out.url)
    // otherwise the keyed field wins when it is truthy ...
    ensures out.Record? && Truthy(Field(out, key)) ==> r == Field(out, key)
    // ... and element 0 is taken when it is not
    ensures out.Record? && !Truthy(Field(out, key)) ==> r == out.first
    ensures out.Nothing? ==> r == None
    // whatever is returned comes from the output itself
    ensures r.Some? ==>
      (out.Text? && r.value == out.url) || (out.Record? && (r == Field(out, key) || r == out.first))
  {
    match out
    case Text(u) => Some(u)
    case Record(_, first) => Or(Field(out, key), first)
    case Nothing => None
  }

  /** The locator a route keeps: Some when the call resolved to an output whose normalised locator is truthy. */
  function Located(o: RunOutcome, key: string): (r: Option<string>)
    ensures r.Some? ==> r.value != "" && o.Output? && r == Normalise(o.out, key)
    ensures r.None? <==> o.RunError? || !Truthy(Normalise(o.out, key))
  {
    if o.Output? && Truthy(Normalise(o.out, key)) then Normalise(o.out, key) else None
  }
}
