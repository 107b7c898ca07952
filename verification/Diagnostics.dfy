/** Bounded lists of diagnostics: the first ones, and one sentinel for all the rest. */
module Diagnostics {
  import opened Basics

  const MAX_DIAGNOSTICS: nat := 32
  const OMITTED := "[additional diagnostics omitted]"

  function AppendDiagnostic(diagnostics: seq<string>, text: string): seq<string> {
    if |diagnostics| < MAX_DIAGNOSTICS then diagnostics + [text]
    else if |diagnostics| == MAX_DIAGNOSTICS then diagnostics + [OMITTED]
    else diagnostics
  }

  function Bounded(texts: seq<string>): seq<string> {
    if |texts| <= MAX_DIAGNOSTICS then texts else texts[..MAX_DIAGNOSTICS] + [OMITTED]
  }

  function AppendAll(texts: seq<string>): seq<string> {
    if texts == [] then [] else AppendDiagnostic(AppendAll(Front(texts)), Last(texts))
  }

  lemma AppendKeepsBound(texts: seq<string>, text: string)
    ensures AppendDiagnostic(Bounded(texts), text) == Bounded(texts + [text])
  {
    if |texts| >= MAX_DIAGNOSTICS {
      assert (texts + [text])[..MAX_DIAGNOSTICS] == texts[..MAX_DIAGNOSTICS];
    }
  }

  /** Appending one by one keeps the first 32 and adds one sentinel exactly if there were more. */
  lemma {:induction false} AppendedIsBounded(texts: seq<string>)
    ensures AppendAll(texts) == Bounded(texts)
  {
    if texts != [] {
      AppendedIsBounded(Front(texts));
      AppendKeepsBound(Front(texts), Last(texts));
      assert Front(texts) + [Last(texts)] == texts;
    }
  }
}
