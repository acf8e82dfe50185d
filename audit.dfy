/**
 * The classifier's audit log (`registrar_log`): every classification appends
 * one entry holding the category and a one-line snippet of the input text.
 * The file handle, the ISO-8601 timestamp and the recovery from a failed
 * write are not modelled; the log is the sequence of entries appended so far.
 */
module Audit {

  /** The longest snippet kept in an entry. */
  const SnippetLength := 200

  /** One line of the log, without its timestamp. */
  datatype Entry = Entry(category: string, snippet: string)

  function Min(a: int, b: int): int {
    if a <= b then a else b
  }

  /** Python's `s.replace("\n", " ")`. */
  function ReplaceNewlines(s: string): (r: string)
    ensures |r| == |s|
    ensures forall i :: 0 <= i < |s| ==> r[i] == (if s[i] == '\n' then ' ' else s[i])
  {
    if s == [] then [] else [if s[0] == '\n' then ' ' else s[0]] + ReplaceNewlines(s[1..])
  }

  /**
   * The snippet of `texto` that is logged: its first 200 characters with
   * every `\n` turned into a space.
   * (Python's `None` is logged as `""`, which is the snippet of `""`.)
   */
  function Snippet(texto: string): (r: string)
    ensures |r| == Min(SnippetLength, |texto|)
    ensures forall i :: 0 <= i < |r| ==> r[i] == (if texto[i] == '\n' then ' ' else texto[i])
    ensures '\n' !in r
  {
    ReplaceNewlines(texto[..Min(SnippetLength, |texto|)])
  }

  /** The entry `registrar_log(texto, categoria)` writes. */
  function LogEntry(texto: string, categoria: string): Entry {
    Entry(categoria, Snippet(texto))
  }

  /** A snippet is its own snippet: logging is stable under re-logging. */
  lemma SnippetIdempotent(texto: string)
    ensures Snippet(Snippet(texto)) == Snippet(texto)
  {
  }

  /** Short single-line text is logged verbatim. */
  lemma {:induction false} SnippetOfShortLine(texto: string)
    requires |texto| <= SnippetLength && '\n' !in texto
    ensures Snippet(texto) == texto
  {
    var r := Snippet(texto);
    forall i | 0 <= i < |texto| ensures r[i] == texto[i] {
      assert texto[i] != '\n';
    }
  }

  /** A snippet depends only on the first 200 characters of the text. */
  lemma SnippetOfPrefix(texto: string, rest: string)
    requires |texto| >= SnippetLength
    ensures Snippet(texto + rest) == Snippet(texto)
  {
  }

  /** The append-only log that `registrar_log` writes to. */
  class Log {
    var entries: seq<Entry>

    constructor ()
      ensures entries == []
    {
      entries := [];
    }

    /** `registrar_log(texto, categoria)`: appends exactly one entry. */
    method Register(texto: string, categoria: string)
      modifies this
      ensures entries == old(entries) + [LogEntry(texto, categoria)]
    {
      entries := entries + [Entry(categoria, Snippet(texto))];
    }
  }
}
