/** Operations on text that several parts of the model share. */
module Text {

  const MAX_DETAIL: nat := 500

  /** slice(0, 500) */
  function Truncate(text: string): string {
    if |text| > MAX_DETAIL then text[..MAX_DETAIL] else text
  }

  /** Array.join */
  function Join(parts: seq<string>, separator: char): string {
    if parts == [] then ""
    else if |parts| == 1 then parts[0]
    else parts[0] + [separator] + Join(parts[1..], separator)
  }

  lemma JoinOne(parts: seq<string>, separator: char)
    requires |parts| > 1
    ensures Join(parts, separator) == parts[0] + ([separator] + Join(parts[1..], separator))
  {
  }
}
