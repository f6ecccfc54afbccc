/**
 Prompt assembly on the upload page: the résumé text is cut to a length
 budget, preferring to end on a period, newline or space when one lies in
 the last fifth of the budget, and is appended to the job-specific
 instructions under a fixed section header.
 */
module Prompting {

  /** The default budget of `truncateText`. */
  const DefaultMaxLength: nat := 50000

  /** Appended after a hard cut. */
  const Ellipsis: string := "..."

  /** Separates the instructions from the résumé text. */
  const PromptHeader: string := "\n\n简历内容：\n"

  /** The characters the cut may end on. */
  predicate IsDelimiter(c: char) {
    c == '.' || c == '\n' || c == ' '
  }

  /** `k` is the index of the last delimiter of `s`, or -1 when `s` has none. */
  ghost predicate IsLastDelimiter(s: string, k: int) {
    && -1 <= k < |s|
    && (k >= 0 ==> IsDelimiter(s[k]))
    && (forall j :: k < j < |s| ==> !IsDelimiter(s[j]))
  }

  /** JavaScript's `lastIndexOf` for a one-character needle: the largest
      index holding `c`, or -1. */
  function LastIndexOf(s: string, c: char): (r: int)
    ensures -1 <= r < |s|
    ensures r >= 0 ==> s[r] == c
    ensures forall j :: r < j < |s| ==> s[j] != c
  {
    if |s| == 0 then -1
    else if s[|s| - 1] == c then |s| - 1
    else LastIndexOf(s[..|s| - 1], c)
  }

  function Max(a: int, b: int): int {
    if a < b then b else a
  }

  /** The maximum of the three `lastIndexOf` results, as `truncateText` computes it:
      it is exactly the last delimiter of `s`. */
  function LastSentenceEnd(s: string): (r: int)
    ensures IsLastDelimiter(s, r)
  {
    Max(Max(LastIndexOf(s, '.'), LastIndexOf(s, '\n')), LastIndexOf(s, ' '))
  }

  /** At most one index is the last delimiter. */
  lemma LastDelimiterUnique(s: string, k1: int, k2: int)
    requires IsLastDelimiter(s, k1) && IsLastDelimiter(s, k2)
    ensures k1 == k2
  {
    assert k1 >= 0 ==> IsDelimiter(s[k1]);
    assert k2 >= 0 ==> IsDelimiter(s[k2]);
  }

  /** What a truncation of `text` under budget `maxLength` may look like:
      the text itself when it fits; otherwise either the hard cut followed
      by the ellipsis, or a non-empty prefix within the budget that ends on
      a delimiter lying beyond 80% of the budget. */
  ghost predicate IsTruncationOf(t: string, text: string, maxLength: nat) {
    if |text| <= maxLength then t == text
    else
      || t == text[..maxLength] + Ellipsis
      || (&& 0 < |t| <= maxLength
          && t == text[..|t|]
          && IsDelimiter(t[|t| - 1])
          && 5 * (|t| - 1) > 4 * maxLength)
  }

  /** `truncateText`: text within the budget passes through; longer text is
      cut at the budget and then moved back to the last delimiter when that
      lies strictly beyond 80% of the budget, else the ellipsis is appended. */
  function TruncateText(text: string, maxLength: nat): (r: string)
    ensures IsTruncationOf(r, text, maxLength)
    ensures |r| <= maxLength + |Ellipsis|
  {
    if |text| <= maxLength then text
    else
      var truncated := text[..maxLength];
      var k := LastSentenceEnd(truncated);
      if 5 * k > 4 * maxLength then truncated[..k + 1] else truncated + Ellipsis
  }

  /** When the last delimiter `k` within the budget lies beyond 80% of it,
      the result is the text up to and including `k`, and nothing between
      `k` and the budget is a delimiter. */
  lemma TruncateAtBoundary(text: string, maxLength: nat, k: int)
    requires |text| > maxLength
    requires IsLastDelimiter(text[..maxLength], k)
    requires 5 * k > 4 * maxLength
    ensures 0 <= k < maxLength
    ensures TruncateText(text, maxLength) == text[..k + 1]
    ensures IsDelimiter(text[k])
    ensures forall j :: k < j < maxLength ==> !IsDelimiter(text[j])
  {
    var truncated := text[..maxLength];
    LastDelimiterUnique(truncated, k, LastSentenceEnd(truncated));
    forall j | k < j < maxLength
      ensures !IsDelimiter(text[j])
    {
      assert text[j] == truncated[j];
    }
    assert truncated[k] == text[k];
  }

  /** When the last delimiter within the budget is at or below 80% of it
      (including "no delimiter", -1), the result is the hard cut plus the
      ellipsis. */
  lemma TruncateHardCut(text: string, maxLength: nat, k: int)
    requires |text| > maxLength
    requires IsLastDelimiter(text[..maxLength], k)
    requires 5 * k <= 4 * maxLength
    ensures TruncateText(text, maxLength) == text[..maxLength] + Ellipsis
  {
    LastDelimiterUnique(text[..maxLength], k, LastSentenceEnd(text[..maxLength]));
  }

  /** Text with no delimiter within the budget is hard cut. */
  lemma TruncateNoDelimiter(text: string, maxLength: nat)
    requires |text| > maxLength
    requires forall j :: 0 <= j < maxLength ==> !IsDelimiter(text[j])
    ensures TruncateText(text, maxLength) == text[..maxLength] + Ellipsis
  {
    var truncated := text[..maxLength];
    forall j | -1 < j < |truncated|
      ensures !IsDelimiter(truncated[j])
    {
      assert truncated[j] == text[j];
    }
    TruncateHardCut(text, maxLength, -1);
  }

  /** The cut lands on a delimiter exactly when some delimiter lies strictly
      beyond 80% of the budget and before it; the result then stays within
      the budget, otherwise it is three characters over. */
  lemma TruncateBranchIff(text: string, maxLength: nat)
    requires |text| > maxLength
    ensures |TruncateText(text, maxLength)| <= maxLength
        <==> exists k :: 4 * maxLength < 5 * k && k < maxLength && IsDelimiter(text[k])
  {
    var truncated := text[..maxLength];
    var last := LastSentenceEnd(truncated);
    if 5 * last > 4 * maxLength {
      TruncateAtBoundary(text, maxLength, last);
    } else {
      TruncateHardCut(text, maxLength, last);
      forall k | 4 * maxLength < 5 * k && k < maxLength
        ensures !IsDelimiter(text[k])
      {
        assert truncated[k] == text[k];
      }
    }
  }

  /** The full prompt: the instructions prepared from the job title and
      description, the section header, then the truncated résumé text.
      `prepare` stands for the instruction template, which is not part of
      this model. */
  function FullPrompt(prepare: (string, string) -> string, jobTitle: string, jobDescription: string, fileText: string): (r: string)
    ensures var instructions := prepare(jobTitle, jobDescription);
      && |instructions| + |PromptHeader| <= |r| <= |instructions| + |PromptHeader| + DefaultMaxLength + |Ellipsis|
      && r[..|instructions|] == instructions
      && r[|instructions|..|instructions| + |PromptHeader|] == PromptHeader
      && IsTruncationOf(r[|instructions| + |PromptHeader|..], fileText, DefaultMaxLength)
      && r[|instructions| + |PromptHeader|..] == TruncateText(fileText, DefaultMaxLength)
  {
    var instructions := prepare(jobTitle, jobDescription);
    var body := TruncateText(fileText, DefaultMaxLength);
    var r := instructions + PromptHeader + body;
    assert r[|instructions| + |PromptHeader|..] == body;
    r
  }

  /** A résumé within the default budget reaches the prompt verbatim. */
  lemma FullPromptKeepsShortText(prepare: (string, string) -> string, jobTitle: string, jobDescription: string, fileText: string)
    requires |fileText| <= DefaultMaxLength
    ensures FullPrompt(prepare, jobTitle, jobDescription, fileText)
         == prepare(jobTitle, jobDescription) + PromptHeader + fileText
  {
    var instructions := prepare(jobTitle, jobDescription);
    var r := FullPrompt(prepare, jobTitle, jobDescription, fileText);
    assert r == r[..|instructions| + |PromptHeader|] + r[|instructions| + |PromptHeader|..];
    assert r[..|instructions| + |PromptHeader|] == instructions + PromptHeader;
  }
}
