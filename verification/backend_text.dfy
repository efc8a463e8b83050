/**
 The string handling of backend/main.py: Python's `str.strip()` and
 `str.isspace()`, the 12000-character prompt cut of `_summarize`, and the
 100-character push body of `_send_expo_push`. A `char` is one Unicode code
 point, as a Python `str` element is.
 */
module BackendText {

  /**
   Python's `str.isspace()` on one character: the code points whose
   bidirectional class is WS, B or S, or whose category is Zs.
   */
  predicate IsSpace(c: char) {
    || ('\t' <= c <= '\r')
    || ('\U{1C}' <= c <= '\U{1F}')
    || c == ' '
    || c == '\U{85}'
    || c == '\U{A0}'
    || c == '\U{1680}'
    || ('\U{2000}' <= c <= '\U{200A}')
    || c == '\U{2028}'
    || c == '\U{2029}'
    || c == '\U{202F}'
    || c == '\U{205F}'
    || c == '\U{3000}'
  }

  /** Every character is whitespace (true of the empty string). */
  predicate IsBlank(s: string) {
    forall i :: 0 <= i < |s| ==> IsSpace(s[i])
  }

  /** `s.lstrip()`: the suffix of `s` after its leading whitespace. */
  function TrimStart(s: string): (r: string)
    ensures |r| <= |s| && r == s[|s| - |r|..]
    ensures r == [] || !IsSpace(r[0])
    ensures forall i :: 0 <= i < |s| - |r| ==> IsSpace(s[i])
  {
    if s != [] && IsSpace(s[0]) then TrimStart(s[1..]) else s
  }

  /** `s.rstrip()`: the prefix of `s` before its trailing whitespace. */
  function TrimEnd(s: string): (r: string)
    ensures |r| <= |s| && r == s[..|r|]
    ensures r == [] || !IsSpace(r[|r| - 1])
    ensures forall i :: |r| <= i < |s| ==> IsSpace(s[i])
  {
    if s != [] && IsSpace(s[|s| - 1]) then TrimEnd(s[..|s| - 1]) else s
  }

  /** Where `Strip(s)` starts in `s`: the length of the leading whitespace. */
  function StripStart(s: string): (k: nat)
    ensures k <= |s|
  {
    |s| - |TrimStart(s)|
  }

  /**
   `s.strip()`: the slice of `s` that remains after removing leading and
   trailing whitespace. Everything removed is whitespace, what remains
   neither starts nor ends with it, and it is empty exactly when `s` is all
   whitespace.
   */
  function Strip(s: string): (r: string)
    ensures StripStart(s) + |r| <= |s|
    ensures r == s[StripStart(s)..StripStart(s) + |r|]
    ensures forall i :: 0 <= i < StripStart(s) ==> IsSpace(s[i])
    ensures forall i :: StripStart(s) + |r| <= i < |s| ==> IsSpace(s[i])
    ensures r == [] || (!IsSpace(r[0]) && !IsSpace(r[|r| - 1]))
    ensures r == [] <==> IsBlank(s)
  {
    var t := TrimStart(s);
    var r := TrimEnd(t);
    assert r == [] ==> t == [];
    assert r != [] ==> s[StripStart(s)] == r[0];
    r
  }

  /** Stripping twice removes nothing more. */
  lemma StripIdempotent(s: string)
    ensures Strip(Strip(s)) == Strip(s)
  {
    var r := Strip(s);
    if r != [] {
      assert TrimStart(r) == r;
      assert TrimEnd(r) == r;
    }
  }

  /** How many characters of a transcript are sent to the summary model. */
  const PromptLimit: nat := 12000

  /** `transcript[:12000]`: at most the first 12000 characters, the whole transcript when it is shorter. */
  function PromptInput(transcript: string): (r: string)
    ensures |r| <= PromptLimit && |r| <= |transcript|
    ensures |r| == if |transcript| <= PromptLimit then |transcript| else PromptLimit
    ensures r == transcript[..|r|]
    ensures |transcript| <= PromptLimit <==> r == transcript
  {
    if |transcript| <= PromptLimit then transcript else transcript[..PromptLimit]
  }

  /** Cutting a cut transcript again changes nothing. */
  lemma PromptInputIdempotent(transcript: string)
    ensures PromptInput(PromptInput(transcript)) == PromptInput(transcript)
  {
  }

  /**
   The cut depends only on the first 12000 characters: whatever follows them
   never reaches the model.
   */
  lemma PromptInputIgnoresTail(transcript: string, more: string)
    requires |transcript| >= PromptLimit
    ensures PromptInput(transcript + more) == PromptInput(transcript)
  {
    assert (transcript + more)[..PromptLimit] == transcript[..PromptLimit];
  }

  /** How many characters of a summary a push body keeps. */
  const PushBodyLimit: nat := 100

  /** The character appended to a cut summary. */
  const Ellipsis: char := '\U{2026}'

  /**
   The push body: the summary itself when it is at most 100 characters long,
   otherwise its first 100 characters followed by an ellipsis. It is never
   longer than 101 characters and always begins with what it kept of the
   summary.
   */
  function PushBody(summary: string): (r: string)
    ensures |r| <= PushBodyLimit + 1
    ensures r[..(if |r| <= PushBodyLimit then |r| else PushBodyLimit)]
            == summary[..(if |summary| <= PushBodyLimit then |summary| else PushBodyLimit)]
    ensures |summary| <= PushBodyLimit ==> r == summary
    ensures |summary| > PushBodyLimit <==> (|r| == PushBodyLimit + 1 && r[PushBodyLimit] == Ellipsis)
  {
    if |summary| > PushBodyLimit then summary[..PushBodyLimit] + [Ellipsis] else summary
  }
}
