/**
 * The `parts` list both handlers build for the model: a text part, then one
 * inline-data part per uploaded file, in the order of the files.
 */
module Parts {
  import opened Wrappers
  import opened Js
  import opened Http

  /** The part the source pushes for a file that is not null or undefined. */
  function InlineOf(file: JsValue): Part {
    InlineData(Prop(file, "mimeType"), Prop(file, "base64"))
  }

  /** The inline-data part for one file, read as `file.mimeType` then
      `file.base64`; the first read throws when the element is null or undefined. */
  function InlinePart(file: JsValue): Result<Part, string> {
    match Get(file, "mimeType")
    case Failure(e) => Failure(e)
    case Success(_) => Success(InlineOf(file))
  }

  /** The inline-data parts for the files, visiting them first to last and
      stopping at the first one whose property read throws. */
  function InlineParts(files: seq<JsValue>): Result<seq<Part>, string> {
    if files == [] then Success([])
    else
      match InlineParts(files[..|files| - 1])
      case Failure(e) => Failure(e)
      case Success(ps) =>
        match InlinePart(files[|files| - 1])
        case Failure(e) => Failure(e)
        case Success(p) => Success(ps + [p])
  }

  /** No element of `files` is null or undefined. */
  predicate AllReadable(files: seq<JsValue>) {
    forall i :: 0 <= i < |files| ==> !Nullish(files[i])
  }

  /** k is the first element of `files` that is null or undefined. */
  predicate FirstUnreadable(files: seq<JsValue>, k: int) {
    0 <= k < |files| && Nullish(files[k]) && AllReadable(files[..k])
  }

  /** The loop succeeds exactly when every file is readable, and then yields one
      part per file, in order; otherwise it fails with the TypeError of the
      first unreadable file. */
  lemma {:induction false} InlinePartsShape(files: seq<JsValue>)
    ensures InlineParts(files).Success? <==> AllReadable(files)
    ensures InlineParts(files).Success? ==>
      |InlineParts(files).value| == |files| &&
      forall i :: 0 <= i < |files| ==> InlineParts(files).value[i] == InlineOf(files[i])
    ensures InlineParts(files).Failure? ==>
      exists k :: FirstUnreadable(files, k) && InlineParts(files).error == ReadError(files[k], "mimeType")
  {
    if files != [] {
      var n := |files| - 1;
      var init := files[..n];
      InlinePartsShape(init);
      assert forall i :: 0 <= i < n ==> files[i] == init[i];
      match InlineParts(init)
      case Failure(e) =>
        var k :| FirstUnreadable(init, k) && e == ReadError(init[k], "mimeType");
        assert init[..k] == files[..k];
        assert FirstUnreadable(files, k);
      case Success(ps) =>
        if Nullish(files[n]) {
          assert init == files[..n];
          assert FirstUnreadable(files, n);
        }
    }
  }

  /** The whole parts list: the text first, then the files' inline data. */
  function AssembleParts(text: string, files: seq<JsValue>): Result<seq<Part>, string> {
    match InlineParts(files)
    case Failure(e) => Failure(e)
    case Success(ps) => Success([TextPart(text)] + ps)
  }

  /** The parts list is assembled exactly when every file is readable; it then
      holds files.length + 1 parts, the text first and each file's inline data
      after it in input order; otherwise the error is the first unreadable
      file's TypeError. */
  lemma AssemblePartsShape(text: string, files: seq<JsValue>)
    ensures AssembleParts(text, files).Success? <==> AllReadable(files)
    ensures AssembleParts(text, files).Success? ==>
      var parts := AssembleParts(text, files).value;
      |parts| == |files| + 1 && parts[0] == TextPart(text) &&
      forall i :: 0 <= i < |files| ==> parts[i + 1] == InlineOf(files[i])
    ensures AssembleParts(text, files).Failure? ==>
      exists k :: FirstUnreadable(files, k) && AssembleParts(text, files).error == ReadError(files[k], "mimeType")
  {
    InlinePartsShape(files);
  }

  /** Once a prefix of the files fails, the whole list fails with the same error. */
  lemma {:induction false} FailureOfPrefix(files: seq<JsValue>, n: nat)
    requires n <= |files| && InlineParts(files[..n]).Failure?
    ensures InlineParts(files) == InlineParts(files[..n])
    decreases |files| - n
  {
    if n < |files| {
      var next := files[..n + 1];
      assert next[..n] == files[..n];
      assert InlineParts(next) == InlineParts(files[..n]);
      FailureOfPrefix(files, n + 1);
    } else {
      assert files[..n] == files;
    }
  }

  /** The `for (const file of files) parts.push(...)` loop, in place on a local list. */
  method BuildParts(text: string, files: seq<JsValue>) returns (r: Result<seq<Part>, string>)
    ensures r == AssembleParts(text, files)
  {
    var parts := [TextPart(text)];
    var i := 0;
    assert files[..0] == [] && parts[1..] == [];
    while i < |files|
      invariant 0 <= i <= |files|
      invariant |parts| == i + 1 && parts[0] == TextPart(text)
      invariant InlineParts(files[..i]) == Success(parts[1..])
    {
      var file := files[i];
      assert files[..i + 1][..i] == files[..i] && files[..i + 1][i] == file;
      match Get(file, "mimeType")
      case Failure(e) =>
        assert InlineParts(files[..i + 1]) == Failure(e);
        FailureOfPrefix(files, i + 1);
        return Failure(e);
      case Success(mimeType) =>
        var part := InlineData(mimeType, Prop(file, "base64"));
        assert (parts + [part])[1..] == parts[1..] + [part];
        parts := parts + [part];
      i := i + 1;
    }
    assert files[..i] == files;
    assert parts == [TextPart(text)] + parts[1..];
    r := Success(parts);
  }
}
