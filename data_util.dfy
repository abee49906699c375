/** `DataUtil.count_words` and `DataUtil.get_first_n_words`: whitespace
    tokenisation and re-joining of the first words. A Python `None` argument is
    `Option.None`. */
module DataUtil {
  import opened Wrappers
  import opened PyStr

  /** `count_words(string)`: 0 for None, else the number of `split()` words,
      which is the number of maximal runs of non-whitespace. */
  function CountWords(s: Option<string>): (n: nat)
    ensures s.None? ==> n == 0
    ensures s.Some? ==> n == RunsFrom(s.value, 0)
  {
    if s.None? then 0
    else
      SplitCountsRuns(s.value, 0);
      assert s.value[0..] == s.value;
      |Split(s.value)|
  }

  /** `words[:n]` with Python's slice rules: a negative `n` counts from the end. */
  function PrefixSlice<T>(xs: seq<T>, n: int): seq<T> {
    if n >= 0 then xs[..if n < |xs| then n else |xs|]
    else xs[..if |xs| + n > 0 then |xs| + n else 0]
  }

  /** `get_first_n_words(text, n=15)`: None for None, else the first `n` words joined by single spaces. */
  function GetFirstNWords(text: Option<string>, n: int := 15): (r: Option<string>)
    ensures text.None? <==> r.None?
    ensures r.Some? ==> SingleSpaced(r.value)
  {
    if text.None? then None
    else
      var words := PrefixSlice(Split(text.value), n);
      JoinSingleSpaced(words);
      Some(Join(words, " "))
  }

  // ---------------------------------------------------------------- the words as runs

  /** A word starts at i: a non-whitespace character at the start or after whitespace. */
  predicate RunStartsAt(s: string, i: nat)
    requires i < |s|
  {
    !IsSpace(s[i]) && (i == 0 || IsSpace(s[i - 1]))
  }

  /** The number of word starts at or after i. */
  function RunsFrom(s: string, i: nat): nat
    requires i <= |s|
    decreases |s| - i
  {
    if i == |s| then 0 else (if RunStartsAt(s, i) then 1 else 0) + RunsFrom(s, i + 1)
  }

  lemma {:induction false} RunsSkipWord(s: string, j: nat, e: nat)
    requires 0 < j <= e <= |s|
    requires forall m :: j - 1 <= m < e ==> !IsSpace(s[m])
    ensures RunsFrom(s, j) == RunsFrom(s, e)
    decreases e - j
  {
    if j < e {
      RunsSkipWord(s, j + 1, e);
    }
  }

  lemma {:induction false} SplitCountsRuns(s: string, i: nat)
    requires i <= |s|
    requires i == 0 || i == |s| || IsSpace(s[i - 1]) || IsSpace(s[i])
    ensures |Split(s[i..])| == RunsFrom(s, i)
    decreases |s| - i
  {
    if i < |s| {
      var t := s[i..];
      if IsSpace(s[i]) {
        assert t[1..] == s[i + 1..];
        SplitCountsRuns(s, i + 1);
      } else {
        var k := WordLen(t);
        assert t[k..] == s[i + k..];
        forall m | i <= m < i + k ensures !IsSpace(s[m]) {
          assert s[m] == t[m - i];
        }
        RunsSkipWord(s, i + 1, i + k);
        if i + k < |s| {
          assert IsSpace(t[k]);
        }
        SplitCountsRuns(s, i + k);
      }
    }
  }

  /** Counting the words of the first n words gives min(n, number of words). */
  lemma CountOfFirstNWords(t: string, n: int)
    requires n >= 0
    ensures var c := CountWords(Some(t));
            CountWords(GetFirstNWords(Some(t), n)) == if n < c then n else c
  {
    var words := PrefixSlice(Split(t), n);
    SplitOfJoin(words);
  }

  /** With a negative n, the last |n| words are dropped. */
  lemma CountOfFirstNWordsNegative(t: string, n: int)
    requires n < 0
    ensures var c := CountWords(Some(t));
            CountWords(GetFirstNWords(Some(t), n)) == if c + n > 0 then c + n else 0
  {
    var words := PrefixSlice(Split(t), n);
    SplitOfJoin(words);
  }

  /** For n >= 0 the result holds exactly the first min(n, number of words) words, in order:
      splitting it again gives that prefix of the original words. */
  lemma FirstNWordsContent(t: string, n: int)
    requires n >= 0
    ensures GetFirstNWords(Some(t), n).Some?
    ensures var ws := Split(t);
            Split(GetFirstNWords(Some(t), n).value) == ws[..if n < |ws| then n else |ws|]
  {
    SplitOfJoin(PrefixSlice(Split(t), n));
  }

  /** Taking at least as many words as there are normalises the whitespace and keeps every word. */
  lemma FirstNWordsKeepsAllWords(t: string, n: int)
    requires n >= CountWords(Some(t))
    ensures GetFirstNWords(Some(t), n).Some?
    ensures Split(GetFirstNWords(Some(t), n).value) == Split(t)
  {
    var ws := Split(t);
    assert PrefixSlice(ws, n) == ws;
    SplitOfJoin(ws);
  }
}
