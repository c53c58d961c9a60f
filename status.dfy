/** `errorDump` of index.php (lines 178-201): a status message wrapped in a
    `<div>` whose Bootstrap class follows the message kind. */
module Status {

  /** The five kinds the switch at index.php:180-198 recognises. */
  const KINDS: set<string> := {"primary", "success", "info", "warning", "danger"}

  const CLOSE_TAG: string := "</div>"

  /** The class suffix chosen by the switch: the kind itself when it is one of
      the five, "primary" for anything else. */
  function DivClass(kind: string): (cls: string)
    ensures cls in KINDS
    ensures kind in KINDS ==> cls == kind
    ensures kind !in KINDS ==> cls == "primary"
  {
    match kind
    case "primary" => "primary"
    case "success" => "success"
    case "info" => "info"
    case "warning" => "warning"
    case "danger" => "danger"
    case _ => "primary"
  }

  function OpenTag(cls: string): string {
    "<div class=\"bg-" + cls + "\">"
  }

  /** `errorDump($str, $type)`. The message is pasted in as is, without any
      HTML escaping. */
  function ErrorDump(msg: string, kind: string): (r: string)
    ensures |r| == |OpenTag(DivClass(kind))| + |msg| + |CLOSE_TAG|
    ensures r[..|OpenTag(DivClass(kind))|] == OpenTag(DivClass(kind))
    ensures r[|OpenTag(DivClass(kind))|..|r| - |CLOSE_TAG|] == msg
    ensures r[|r| - |CLOSE_TAG|..] == CLOSE_TAG
  {
    var open := OpenTag(DivClass(kind));
    var r := open + msg + CLOSE_TAG;
    assert r[..|open|] == open;
    assert r[|open|..|r| - |CLOSE_TAG|] == msg;
    r
  }

  /** The message of a status `<div>` of a known class. */
  function MessageOf(html: string, cls: string): string
    requires |OpenTag(cls)| + |CLOSE_TAG| <= |html|
  {
    html[|OpenTag(cls)|..|html| - |CLOSE_TAG|]
  }

  /** A status `<div>` of class cls. */
  predicate HasClass(html: string, cls: string) {
    |OpenTag(cls)| + |CLOSE_TAG| <= |html| && html[..|OpenTag(cls)|] == OpenTag(cls)
    && html[|html| - |CLOSE_TAG|..] == CLOSE_TAG
  }

  /** The class and the message can be read back from the markup. */
  lemma ErrorDumpRoundTrip(msg: string, kind: string)
    ensures HasClass(ErrorDump(msg, kind), DivClass(kind))
    ensures MessageOf(ErrorDump(msg, kind), DivClass(kind)) == msg
  {
  }
}
