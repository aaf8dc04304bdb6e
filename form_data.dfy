/** The browser's `File` and `FormData`, as far as the application uses them:
    a file has a name, a MIME type and a size, and a form is the sequence of
    its named parts in the order they were appended. */
module FormData {

  datatype File = File(name: string, mime: string, size: nat)

  datatype Part = TextPart(name: string, text: string) | FilePart(name: string, file: File) {
    function Name(): string {
      match this
      case TextPart(n, _) => n
      case FilePart(n, _) => n
    }
  }

  /** A `new FormData()` that the caller fills with `append`. */
  class Form {
    var parts: seq<Part>

    constructor ()
      ensures parts == []
    {
      parts := [];
    }

    /** `append(name, text)` of a string value. */
    method AppendText(name: string, text: string)
      modifies this
      ensures parts == old(parts) + [TextPart(name, text)]
    {
      parts := parts + [TextPart(name, text)];
    }

    /** `append(name, file)` of a file value. */
    method AppendFile(name: string, file: File)
      modifies this
      ensures parts == old(parts) + [FilePart(name, file)]
    {
      parts := parts + [FilePart(name, file)];
    }
  }

  /** The names of the parts, in order. */
  function Names(parts: seq<Part>): (r: seq<string>)
    ensures |r| == |parts|
    ensures forall i :: 0 <= i < |parts| ==> r[i] == parts[i].Name()
  {
    seq(|parts|, i requires 0 <= i < |parts| => parts[i].Name())
  }
}
