/** The bank-statement upload page: the extension check on the chosen file and
    the message shown for the upload's `count`. The upload itself is an input. */
module UploadBankStatement {
  import opened Js

  /** `s.lastIndexOf(c)`: -1 when `c` does not occur. */
  function LastIndexOf(s: string, c: char): (i: int)
    ensures -1 <= i < |s|
    ensures i >= 0 ==> s[i] == c
    ensures forall j :: i < j < |s| ==> s[j] != c
  {
    if s == [] then -1
    else if s[|s| - 1] == c then |s| - 1
    else LastIndexOf(s[..|s| - 1], c)
  }

  /** `s.substring(k)`: a negative start counts as 0. */
  function Substring(s: string, k: int): (r: string)
    requires k <= |s|
    ensures k <= 0 ==> r == s
    ensures k >= 0 ==> r == s[k..]
  {
    if k <= 0 then s else s[k..]
  }

  /** `name.substring(name.lastIndexOf('.')).toLowerCase()`: from the last dot on,
      or the whole name when it has no dot. */
  function Extension(name: string): (e: string)
    ensures |e| <= |name|
    ensures '.' !in name ==> e == ToLower(name)
    ensures '.' in name ==> e != [] && e[0] == '.' && '.' !in e[1..]
    ensures '.' in name ==>
      exists k :: 0 <= k < |name| && name[k] == '.' && '.' !in name[k + 1..] && e == ToLower(name[k..])
  {
    LastDotFound(name);
    ToLower(Substring(name, LastIndexOf(name, '.')))
  }

  /** A name with a dot has a last one, and no dot follows it. */
  lemma LastDotFound(name: string)
    ensures '.' in name ==> 0 <= LastIndexOf(name, '.') && '.' !in name[LastIndexOf(name, '.') + 1..]
  {
    var k := LastIndexOf(name, '.');
    if '.' in name {
      var j :| 0 <= j < |name| && name[j] == '.';
      assert k >= j;
      var t := name[k + 1..];
      forall m | 0 <= m < |t|
        ensures t[m] != '.'
      {
        assert t[m] == name[k + 1 + m];
      }
    }
  }

  /** Lowercasing keeps every dot where it was and adds none. */
  lemma LastDotOfLower(name: string)
    ensures LastIndexOf(ToLower(name), '.') == LastIndexOf(name, '.')
  {
  }

  /** The extension depends only on the lowercased name. */
  lemma ExtensionOfLower(name: string)
    ensures Extension(ToLower(name)) == Extension(name)
  {
    LastDotOfLower(name);
    var k := LastIndexOf(name, '.');
    var low := ToLower(name);
    var tail := Substring(name, k);
    assert Substring(low, k) == ToLower(tail);
    assert ToLower(ToLower(tail)) == ToLower(tail);
  }

  predicate Accepted(name: string) {
    Extension(name) == ".xlsx" || Extension(name) == ".xls"
  }

  /** The check ignores case: two names that differ only in the case of their
      letters are accepted or refused together; in particular a name and its
      upper-cased form. */
  lemma AcceptedIgnoresCase(a: string, b: string)
    ensures ToLower(a) == ToLower(b) ==> (Accepted(a) <==> Accepted(b))
    ensures Accepted(ToUpper(a)) <==> Accepted(a)
  {
    ExtensionOfLower(a);
    ExtensionOfLower(b);
    ExtensionOfLower(ToUpper(a));
    LowerOfUpper(a);
  }

  /** Only the last dot counts: a name is accepted exactly when the text after
      its last dot is "xlsx" or "xls" in any case, whatever dots come before. */
  lemma {:induction false} LastDotDecides(base: string, ext: string)
    requires '.' !in ext
    ensures Accepted(base + "." + ext) <==> ToLower(ext) == "xlsx" || ToLower(ext) == "xls"
  {
    LastDotOfJoin(base, ext);
    ExtensionAt(base + "." + ext, |base|);
    LowerAfterDot(ext);
    DotPrefixCancels(ToLower(ext), "xlsx");
    DotPrefixCancels(ToLower(ext), "xls");
  }

  /** In `base + "." + ext` with a dot-free `ext`, the joining dot is the last
      one and the text from it on is `"." + ext`. */
  lemma LastDotOfJoin(base: string, ext: string)
    requires '.' !in ext
    ensures LastIndexOf(base + "." + ext, '.') == |base|
    ensures (base + "." + ext)[|base|..] == "." + ext
  {
    ConcatAssoc(base, ".", ext);
    NoDotAfter(base, "." + ext);
    LastIndexAt(base + ("." + ext), |base|);
    SuffixAfter(base, "." + ext);
  }

  lemma NoDotAfter(base: string, d: string)
    requires d != [] && '.' !in d[1..]
    ensures forall j :: |base| < j < |base + d| ==> (base + d)[j] != '.'
  {
    var n := base + d;
    var t := d[1..];
    forall j | |base| < j < |n|
      ensures n[j] != '.'
    {
      assert n[j] == t[j - |base| - 1];
    }
  }

  lemma SuffixAfter<T>(x: seq<T>, y: seq<T>)
    ensures (x + y)[|x|..] == y
  {
  }

  lemma ExtensionAt(name: string, k: int)
    requires 0 <= k < |name| && LastIndexOf(name, '.') == k
    ensures Extension(name) == ToLower(name[k..])
  {
  }

  lemma LowerAfterDot(ext: string)
    ensures ToLower("." + ext) == "." + ToLower(ext)
  {
  }

  lemma DotPrefixCancels(x: string, y: string)
    ensures "." + x == "." + y <==> x == y
  {
    if "." + x == "." + y {
      assert x == ("." + x)[1..];
    }
  }

  /** A dot with no dot after it is the last one. */
  lemma LastIndexAt(s: string, k: int)
    requires 0 <= k < |s| && s[k] == '.'
    requires forall j :: k < j < |s| ==> s[j] != '.'
    ensures LastIndexOf(s, '.') == k
  {
  }

  const WrongType := "Please select an Excel file (.xlsx or .xls)"

  /** What the page reports after an upload. */
  datatype Message = Message(kind: string, title: string, text: string)

  /** What the upload request ended in: the server's `count`, or a thrown
      error's message. */
  datatype UploadReply = Counted(count: int) | Threw(message: string)

  /** The message for the upload's `count`. */
  function ResultMessage(count: int): (m: Message)
    ensures m.kind == "success" <==> count > 0
    ensures count > 0 ==> m.text == "Successfully uploaded " + IntToString(count) + " items."
    ensures count <= 0 ==> m == Message("error", "Upload Failed",
      "No items were uploaded. Please check your file and try again.")
  {
    if count > 0 then Message("success", "Upload Successful", "Successfully uploaded " + IntToString(count) + " items.")
    else Message("error", "Upload Failed", "No items were uploaded. Please check your file and try again.")
  }

  /** A file: its name (its content is not modelled). */
  datatype File = File(name: string)

  class Page {
    var selectedFile: Option<File>
    var errorMessage: string
    var responseMessage: Option<Message>

    /** A stored file always passes the check. */
    ghost predicate Valid()
      reads this
    {
      selectedFile.Some? ==> Accepted(selectedFile.value.name)
    }

    constructor ()
      ensures selectedFile == None && errorMessage == "" && responseMessage == None && Valid()
    {
      selectedFile := None;
      errorMessage := "";
      responseMessage := None;
    }

    /** `handleFileSelect`: a refused file clears the selection and keeps the
        last response; an accepted one is stored and clears both messages. */
    method SelectFile(file: File)
      modifies this
      ensures Accepted(file.name) ==> selectedFile == Some(file) && errorMessage == "" && responseMessage == None
      ensures !Accepted(file.name) ==>
        selectedFile == None && errorMessage == WrongType && responseMessage == old(responseMessage)
      ensures Valid()
    {
      if !Accepted(file.name) {
        errorMessage := WrongType;
        selectedFile := None;
        return;
      }
      selectedFile := Some(file);
      errorMessage := "";
      responseMessage := None;
    }

    /** `handleUpload` with the outcome of the upload request as input:
        nothing happens without a selected file; a request that throws shows
        its message under the page's error. */
    method Upload(reply: UploadReply)
      modifies this`errorMessage, this`responseMessage
      ensures old(selectedFile).None? ==> errorMessage == old(errorMessage) && responseMessage == old(responseMessage)
      ensures old(selectedFile).Some? && reply.Counted? ==>
        errorMessage == "" && responseMessage == Some(ResultMessage(reply.count))
      ensures old(selectedFile).Some? && reply.Threw? ==>
        errorMessage == "Error uploading file: " + reply.message && responseMessage.None?
    {
      if selectedFile.None? {
        return;
      }
      responseMessage := None;
      errorMessage := "";
      match reply
      case Counted(count) =>
        responseMessage := Some(ResultMessage(count));
      case Threw(message) =>
        errorMessage := "Error uploading file: " + message;
    }
  }
}
