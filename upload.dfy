/** The upload check `allowed_file`: only `.txt` and `.pdf` files are accepted. */
module Upload {
  import opened Wrappers
  import opened Text

  /** `ALLOWED_EXTENSIONS`. */
  const AllowedExtensions: set<string> := {"txt", "pdf"}

  /** Index `k` of `s` holds a `.` and no `.` follows it. */
  predicate DotIsLast(s: string, k: int) {
    0 <= k < |s| && s[k] == '.' && forall j :: k < j < |s| ==> s[j] != '.'
  }

  /** `ext.lower() in ALLOWED_EXTENSIONS`. */
  predicate AllowedExtension(ext: string) {
    Lower(ext) in AllowedExtensions
  }

  /** The index of the last `.` in `s`, if there is one. */
  function LastDot(s: string): (r: Option<nat>)
    ensures r.Some? ==> DotIsLast(s, r.value)
    ensures r.None? <==> '.' !in s
  {
    if s == [] then None
    else if s[|s| - 1] == '.' then Some(|s| - 1)
    else LastDot(s[..|s| - 1])
  }

  /**
   * `allowed_file(filename)`: `filename` has a `.` and the text after its last
   * `.` (`filename.rsplit(".", 1)[1]`), lowered, is an allowed extension.
   */
  function AllowedFile(filename: string): (ok: bool)
    ensures ok <==> exists k :: DotIsLast(filename, k) && AllowedExtension(filename[k + 1..])
  {
    match LastDot(filename)
    case None => false
    case Some(k) => AllowedExtension(filename[k + 1..])
  }

  /** A name `stem.ext` whose `ext` holds no `.` is judged by `ext` alone. */
  lemma {:induction false} AllowedFileByExtension(stem: string, ext: string)
    requires '.' !in ext
    ensures AllowedFile(stem + "." + ext) <==> AllowedExtension(ext)
  {
    var name := stem + "." + ext;
    forall j | |stem| < j < |name| ensures name[j] != '.' {
      assert name[j] == ext[j - |stem| - 1];
    }
    assert DotIsLast(name, |stem|);
    assert name[|stem| + 1..] == ext;
  }

  /** `.txt` is accepted and only the text after the last `.` counts, in any letter case. */
  lemma AcceptedExamples()
    ensures AllowedFile(".txt") && AllowedFile("a.b.PDF")
  {
    assert "" + "." + "txt" == ".txt";
    assert Lower("txt") == "txt";
    assert AllowedExtension("txt");
    AllowedFileByExtension("", "txt");
    assert "a.b" + "." + "PDF" == "a.b.PDF";
    assert Lower("PDF") == "pdf";
    assert AllowedExtension("PDF");
    AllowedFileByExtension("a.b", "PDF");
  }

  /** A name without a `.`, or whose last extension is another one, is refused. */
  lemma RefusedExamples()
    ensures !AllowedFile("pdf") && !AllowedFile("a.pdf.exe") && !AllowedFile("a.")
  {
    assert "a.pdf" + "." + "exe" == "a.pdf.exe";
    assert Lower("exe") == "exe";
    assert !AllowedExtension("exe");
    AllowedFileByExtension("a.pdf", "exe");
    assert "a" + "." + "" == "a.";
    assert Lower("") == "";
    assert !AllowedExtension("");
    AllowedFileByExtension("a", "");
  }
}
