/** `_split_message` of `src/bub/channels/telegram.py`: a reply longer
    than Telegram's message limit is cut into chunks, preferably at a
    newline, and the newlines at each cut are dropped. */
module TelegramSplit {
  import opened Text

  const MaxMessageLength := 4096

  /** `text.rfind("\n", 0, hi)`: the last newline before `hi`, else -1. */
  function RFindNewline(text: string, hi: nat): (r: int)
    requires hi <= |text|
    ensures -1 <= r < hi
    ensures r >= 0 ==> text[r] == '\n'
    ensures forall j :: r < j < hi ==> text[j] != '\n'
    decreases hi
  {
    if hi == 0 then -1
    else if text[hi - 1] == '\n' then hi - 1
    else RFindNewline(text, hi - 1)
  }

  function Newlines(n: nat): (r: string)
    ensures |r| == n && forall i :: 0 <= i < n ==> r[i] == '\n'
  {
    if n == 0 then "" else "\n" + Newlines(n - 1)
  }

  /** The chunks with the newlines dropped after each of them put back. */
  function Weave(chunks: seq<string>, gaps: seq<nat>): string
    requires |gaps| == |chunks|
    decreases |chunks|
  {
    if |chunks| == 0 then "" else chunks[0] + Newlines(gaps[0]) + Weave(chunks[1..], gaps[1..])
  }

  lemma {:induction false} WeaveSnoc(chunks: seq<string>, gaps: seq<nat>, c: string, g: nat)
    requires |gaps| == |chunks|
    ensures Weave(chunks + [c], gaps + [g]) == Weave(chunks, gaps) + c + Newlines(g)
    decreases |chunks|
  {
    if |chunks| == 0 {
      assert chunks + [c] == [c] && gaps + [g] == [g];
    } else {
      assert (chunks + [c])[1..] == chunks[1..] + [c];
      assert (gaps + [g])[1..] == gaps[1..] + [g];
      WeaveSnoc(chunks[1..], gaps[1..], c, g);
    }
  }

  /** Where one turn of the `_split_message` loop cuts a text longer than
      `limit`: at the last newline before `limit`, or at `limit` itself
      when there is none past the first character. */
  function SplitPoint(rest: string, limit: int): (k: nat)
    requires 0 < limit < |rest|
    ensures 0 < k <= limit
    ensures k == limit || rest[k] == '\n'
    ensures k < limit ==> forall j :: k < j < limit ==> rest[j] != '\n'
    ensures k == limit ==> forall j :: 0 < j < limit ==> rest[j] != '\n'
  {
    var found := RFindNewline(rest, limit);
    if found <= 0 then limit else found
  }

  /** The end of the run of newlines starting at `i`: what `lstrip("\n")`
      drops from `s[i..]`. */
  function NewlineRun(s: string, i: nat): (j: nat)
    requires i <= |s|
    ensures i <= j <= |s|
    ensures s[i..j] == Newlines(j - i)
    ensures j < |s| ==> s[j] != '\n'
    decreases |s| - i
  {
    if i < |s| && s[i] == '\n' then
      var j := NewlineRun(s, i + 1);
      assert s[i..j] == [s[i]] + s[i + 1..j];
      j
    else i
  }

  /** Appending the chunk `text[pos..end]` and the newlines after it up to
      `next` extends the woven prefix of `text` from `pos` to `next`. */
  lemma {:induction false} WeaveExtend(text: string, chunks: seq<string>, gaps: seq<nat>, pos: nat, end: nat, next: nat)
    requires pos <= end <= next <= |text|
    requires |gaps| == |chunks| && Weave(chunks, gaps) == text[..pos]
    requires text[end..next] == Newlines(next - end)
    ensures Weave(chunks + [text[pos..end]], gaps + [next - end]) == text[..next]
  {
    WeaveSnoc(chunks, gaps, text[pos..end], next - end);
    assert text[..next] == text[..pos] + text[pos..end] + text[end..next];
  }

  /** `_split_message(text, limit)`: the text itself when it fits (the empty
      text included); otherwise non-empty chunks of at most `limit`
      characters that give back the text when the newlines dropped at each
      boundary are put back, no chunk but the first starting with a newline.
      The loop's remaining text is `text[pos..]`. For `limit <= 0` the
      source loops forever on most texts (limit 0 and the text "a", say);
      the only caller passes 4096, so `limit > 0` is required. */
  method SplitMessage(text: string, limit: int) returns (chunks: seq<string>)
    requires limit > 0
    ensures |text| <= limit ==> chunks == [text]
    ensures |text| > limit ==> forall i :: 0 <= i < |chunks| ==> 0 < |chunks[i]| <= limit
    ensures forall i :: 1 <= i < |chunks| ==> chunks[i][0] != '\n'
    ensures exists gaps :: |gaps| == |chunks| && text == Weave(chunks, gaps)
  {
    if |text| <= limit {
      assert text == Weave([text], [0]);
      return [text];
    }
    chunks := [];
    ghost var gaps: seq<nat> := [];
    var pos := 0;
    while pos < |text|
      invariant pos <= |text|
      invariant |gaps| == |chunks|
      invariant Weave(chunks, gaps) == text[..pos]
      invariant forall i :: 0 <= i < |chunks| ==> 0 < |chunks[i]| <= limit
      invariant forall i :: 1 <= i < |chunks| ==> chunks[i][0] != '\n'
      invariant |chunks| > 0 && pos < |text| ==> text[pos] != '\n'
      decreases |text| - pos
    {
      var end, next;
      if |text| - pos <= limit {
        end, next := |text|, |text|;
      } else {
        var k := SplitPoint(text[pos..], limit);
        end := pos + k;
        next := NewlineRun(text, end);
      }
      WeaveExtend(text, chunks, gaps, pos, end, next);
      var chunk := text[pos..end];
      assert chunk[0] == text[pos];
      chunks := chunks + [chunk];
      gaps := gaps + [next - end];
      pos := next;
    }
  }
}
