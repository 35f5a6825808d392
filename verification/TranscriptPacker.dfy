/** Packing session transcripts, in order, into as few size-limited files as possible. */
module TranscriptPacker {
  import opened Sequences

  const MAX_CHARS_PER_FILE: nat := 100_000

  const SEPARATOR: string := "\n\n"

  /** The text of one file. */
  function Joined(group: seq<string>): string {
    if group == [] then []
    else if |group| == 1 then group[0]
    else Joined(group[..|group| - 1]) + SEPARATOR + group[|group| - 1]
  }

  /** A file may hold these transcripts: they fit, or there is just one. */
  predicate Allowed(group: seq<string>) {
    group != [] && (|Joined(group)| <= MAX_CHARS_PER_FILE || |group| == 1)
  }

  function StartOf(ends: seq<nat>, i: nat): nat
    requires i <= |ends|
  {
    if i == 0 then 0 else ends[i - 1]
  }

  /** Group i is not empty and may share a file. */
  predicate GoodGroup(transcripts: seq<string>, ends: seq<nat>, i: nat)
    requires i < |ends|
  {
    StartOf(ends, i) < ends[i] <= |transcripts| && Allowed(transcripts[StartOf(ends, i)..ends[i]])
  }

  /** `ends` cuts a prefix of the transcripts, in order and without gaps, into allowed groups. */
  ghost predicate Cuts(transcripts: seq<string>, ends: seq<nat>) {
    forall i: nat :: i < |ends| ==> GoodGroup(transcripts, ends, i)
  }

  ghost predicate IsPacking(transcripts: seq<string>, ends: seq<nat>) {
    Cuts(transcripts, ends) && StartOf(ends, |ends|) == |transcripts|
  }

  /** The transcripts from `start` to `end` could not have shared a file with the next one. */
  predicate Full(transcripts: seq<string>, start: nat, end: nat) {
    start <= end < |transcripts| ==> !Allowed(transcripts[start..end + 1])
  }

  /** Group i could not have taken the transcript that follows it. */
  predicate FullGroup(transcripts: seq<string>, ends: seq<nat>, i: nat)
    requires i < |ends|
  {
    Full(transcripts, StartOf(ends, i), ends[i])
  }

  ghost predicate Saturated(transcripts: seq<string>, ends: seq<nat>) {
    forall i: nat :: i < |ends| ==> FullGroup(transcripts, ends, i)
  }

  // ---------- Smaller groups are allowed too ----------

  /** The transcripts of a file stand in it in order, the first one first. */
  lemma {:induction false} JoinedHead(group: seq<string>)
    requires |group| >= 2
    ensures Joined(group) == group[0] + SEPARATOR + Joined(group[1..])
  {
    var init, last := group[..|group| - 1], group[|group| - 1];
    if |group| > 2 {
      JoinedHead(init);
      assert init[1..] == group[1..][..|group| - 2];
      Assoc(group[0] + SEPARATOR, Joined(init[1..]), SEPARATOR);
      Assoc(group[0] + SEPARATOR, Joined(init[1..]) + SEPARATOR, last);
    } else {
      assert init == [group[0]] && group[1..] == [last];
    }
  }

  lemma {:induction false} SuffixAllowed(transcripts: seq<string>, a: nat, b: nat, c: nat)
    requires a <= b < c <= |transcripts| && Allowed(transcripts[a..c])
    ensures Allowed(transcripts[b..c])
    decreases b - a
  {
    if a < b {
      if |transcripts[a..c]| >= 2 {
        JoinedHead(transcripts[a..c]);
        assert transcripts[a..c][1..] == transcripts[a + 1..c];
      }
      SuffixAllowed(transcripts, a + 1, b, c);
    }
  }

  lemma {:induction false} PrefixAllowed(transcripts: seq<string>, a: nat, b: nat, c: nat)
    requires a < b <= c <= |transcripts| && Allowed(transcripts[a..c])
    ensures Allowed(transcripts[a..b])
    decreases c - b
  {
    if b < c {
      assert transcripts[a..c][..|transcripts[a..c]| - 1] == transcripts[a..c - 1];
      PrefixAllowed(transcripts, a, b, c - 1);
    }
  }

  lemma PartAllowed(transcripts: seq<string>, a: nat, b: nat, c: nat, d: nat)
    requires a <= b < c <= d <= |transcripts| && Allowed(transcripts[a..d])
    ensures Allowed(transcripts[b..c])
  {
    SuffixAllowed(transcripts, a, b, d);
    PrefixAllowed(transcripts, b, c, d);
  }

  // ---------- Greedy stays ahead ----------

  lemma FullReachesFar(transcripts: seq<string>, a: nat, far: nat, b: nat, end: nat)
    requires a < far <= |transcripts| && Allowed(transcripts[a..far])
    requires a <= b < end <= |transcripts| && Full(transcripts, b, end)
    ensures far <= end
  {
    if far > end {
      PartAllowed(transcripts, a, b, end + 1, far);
    }
  }

  lemma {:induction false} StaysAhead(transcripts: seq<string>, greedy: seq<nat>, other: seq<nat>, i: nat)
    requires Cuts(transcripts, greedy) && Saturated(transcripts, greedy) && Cuts(transcripts, other)
    requires i <= |greedy| && i <= |other|
    ensures StartOf(other, i) <= StartOf(greedy, i)
  {
    if i > 0 {
      StaysAhead(transcripts, greedy, other, i - 1);
      assert GoodGroup(transcripts, greedy, i - 1) && GoodGroup(transcripts, other, i - 1);
      assert FullGroup(transcripts, greedy, i - 1);
      FullReachesFar(transcripts, StartOf(other, i - 1), other[i - 1], StartOf(greedy, i - 1), greedy[i - 1]);
    }
  }

  lemma {:induction false} EndsGrow(transcripts: seq<string>, ends: seq<nat>, i: nat)
    requires Cuts(transcripts, ends) && i < |ends|
    ensures StartOf(ends, i) < StartOf(ends, |ends|)
    decreases |ends| - i
  {
    assert GoodGroup(transcripts, ends, i);
    if i + 1 < |ends| {
      EndsGrow(transcripts, ends, i + 1);
    }
  }

  /** No packing of the same transcripts needs fewer files than a saturated one. */
  lemma SaturatedIsMinimal(transcripts: seq<string>, greedy: seq<nat>, other: seq<nat>)
    requires IsPacking(transcripts, greedy) && Saturated(transcripts, greedy) && IsPacking(transcripts, other)
    ensures |greedy| <= |other|
  {
    if |other| < |greedy| {
      StaysAhead(transcripts, greedy, other, |other|);
      EndsGrow(transcripts, greedy, |other|);
    }
  }

  // ---------- The loop ----------

  /** A written file: its running number and its text. */
  datatype File = File(index: nat, content: string)

  predicate GoodFile(transcripts: seq<string>, ends: seq<nat>, files: seq<File>, i: nat)
    requires i < |ends| && i < |files|
  {
    StartOf(ends, i) <= ends[i] <= |transcripts| && files[i] == File(i, Joined(transcripts[StartOf(ends, i)..ends[i]]))
  }

  ghost predicate Written(transcripts: seq<string>, ends: seq<nat>, files: seq<File>) {
    Cuts(transcripts, ends) && FilesMatch(transcripts, ends, files)
  }

  lemma JoinedSnoc(transcripts: seq<string>, a: nat, k: nat)
    requires a <= k < |transcripts|
    ensures Joined(transcripts[a..k + 1]) ==
            if a == k then transcripts[k] else Joined(transcripts[a..k]) + SEPARATOR + transcripts[k]
  {
    var group := transcripts[a..k + 1];
    assert group[..|group| - 1] == transcripts[a..k];
  }

  lemma OneMoreGroup(transcripts: seq<string>, ends: seq<nat>, end: nat)
    requires Cuts(transcripts, ends) && StartOf(ends, |ends|) < end <= |transcripts|
    requires Allowed(transcripts[StartOf(ends, |ends|)..end])
    ensures Cuts(transcripts, ends + [end])
  {
    forall i: nat | i < |ends| + 1 ensures GoodGroup(transcripts, ends + [end], i) {
      assert i < |ends| ==> GoodGroup(transcripts, ends, i);
    }
  }

  lemma OneMoreFull(transcripts: seq<string>, ends: seq<nat>, end: nat)
    requires Saturated(transcripts, ends) && Full(transcripts, StartOf(ends, |ends|), end)
    ensures Saturated(transcripts, ends + [end])
  {
    var longer := ends + [end];
    forall i: nat | i < |longer| ensures FullGroup(transcripts, longer, i) {
      assert StartOf(longer, i) == StartOf(ends, i);
      assert i < |ends| ==> FullGroup(transcripts, ends, i);
    }
  }

  ghost predicate FilesMatch(transcripts: seq<string>, ends: seq<nat>, files: seq<File>) {
    |files| == |ends| && forall i: nat :: i < |files| ==> GoodFile(transcripts, ends, files, i)
  }

  lemma OneMoreFile(transcripts: seq<string>, ends: seq<nat>, files: seq<File>, end: nat, content: string)
    requires FilesMatch(transcripts, ends, files) && StartOf(ends, |ends|) <= end <= |transcripts|
    requires content == Joined(transcripts[StartOf(ends, |ends|)..end])
    ensures FilesMatch(transcripts, ends + [end], files + [File(|files|, content)])
  {
    var longer, more := ends + [end], files + [File(|files|, content)];
    forall i: nat | i < |more| ensures GoodFile(transcripts, longer, more, i) {
      assert i < |files| ==> GoodFile(transcripts, ends, files, i);
    }
  }

  /** Writing one more file keeps the files in step with the groups. */
  lemma CloseGroup(transcripts: seq<string>, ends: seq<nat>, files: seq<File>, end: nat, content: string)
    requires Written(transcripts, ends, files) && Saturated(transcripts, ends)
    requires StartOf(ends, |ends|) < end <= |transcripts|
    requires var start := StartOf(ends, |ends|);
             Allowed(transcripts[start..end]) && content == Joined(transcripts[start..end]) &&
               Full(transcripts, start, end)
    ensures Written(transcripts, ends + [end], files + [File(|files|, content)])
    ensures Saturated(transcripts, ends + [end])
  {
    OneMoreGroup(transcripts, ends, end);
    OneMoreFull(transcripts, ends, end);
    OneMoreFile(transcripts, ends, files, end, content);
  }

  /** The last file of a partition, holding one oversized transcript. */
  lemma CloseOversized(transcripts: seq<string>, ends: seq<nat>, files: seq<File>, k: nat)
    requires Written(transcripts, ends, files) && Saturated(transcripts, ends)
    requires k == StartOf(ends, |ends|) < |transcripts| && |transcripts[k]| > MAX_CHARS_PER_FILE
    ensures Written(transcripts, ends + [k + 1], files + [File(|files|, transcripts[k])])
    ensures Saturated(transcripts, ends + [k + 1])
  {
    assert transcripts[k..k + 1] == [transcripts[k]];
    if k + 1 < |transcripts| {
      OversizedIsSaturated(transcripts, k);
    }
    CloseGroup(transcripts, ends, files, k + 1, transcripts[k]);
  }

  /** A group that the next transcript would overfill is closed as it is. */
  lemma CloseFull(transcripts: seq<string>, ends: seq<nat>, files: seq<File>, k: nat, content: string)
    requires Written(transcripts, ends, files) && Saturated(transcripts, ends)
    requires var start := StartOf(ends, |ends|);
             start < k < |transcripts| && content == Joined(transcripts[start..k]) && |content| <= MAX_CHARS_PER_FILE
    requires |content| + |transcripts[k]| + 2 > MAX_CHARS_PER_FILE
    ensures Written(transcripts, ends + [k], files + [File(|files|, content)]) && Saturated(transcripts, ends + [k])
  {
    JoinedSnoc(transcripts, StartOf(ends, |ends|), k);
    CloseGroup(transcripts, ends, files, k, content);
  }

  lemma OversizedIsSaturated(transcripts: seq<string>, k: nat)
    requires k + 1 < |transcripts| && |transcripts[k]| > MAX_CHARS_PER_FILE
    ensures !Allowed(transcripts[k..k + 2])
  {
    JoinedSnoc(transcripts, k, k + 1);
    assert transcripts[k..k + 1] == [transcripts[k]];
  }

  /**
   * Every transcript is a non-empty text. The files partition the transcripts in order, each within the
   * limit or holding one oversized transcript alone, numbered consecutively, and no such partition is smaller.
   */
  method Pack(transcripts: seq<string>) returns (outputFiles: seq<File>, ghost ends: seq<nat>)
    requires forall i :: 0 <= i < |transcripts| ==> |transcripts[i]| > 0
    ensures Written(transcripts, ends, outputFiles) && IsPacking(transcripts, ends)
    ensures forall other :: IsPacking(transcripts, other) ==> |outputFiles| <= |other|
  {
    outputFiles, ends := [], [];
    var currentContent, fileIndex := "", 0;
    ghost var start := 0;
    for k := 0 to |transcripts|
      invariant start == StartOf(ends, |ends|) <= k && fileIndex == |outputFiles|
      invariant Written(transcripts, ends, outputFiles) && Saturated(transcripts, ends)
      invariant if start == k then currentContent == ""
                else currentContent == Joined(transcripts[start..k]) && 0 < |currentContent| <= MAX_CHARS_PER_FILE
    {
      var transcript := transcripts[k];
      if |currentContent| > 0 && |currentContent| + |transcript| + 2 > MAX_CHARS_PER_FILE {
        CloseFull(transcripts, ends, outputFiles, k, currentContent);
        outputFiles := outputFiles + [File(fileIndex, currentContent)];
        ends, start := ends + [k], k;
        currentContent, fileIndex := "", fileIndex + 1;
      }
      if |transcript| > MAX_CHARS_PER_FILE {
        // The check above has flushed whatever was pending, so the flush the source repeats here never runs.
        assert currentContent == "";
        CloseOversized(transcripts, ends, outputFiles, k);
        outputFiles := outputFiles + [File(fileIndex, transcript)];
        ends, start := ends + [k + 1], k + 1;
        fileIndex := fileIndex + 1;
        continue;
      }
      JoinedSnoc(transcripts, start, k);
      currentContent := currentContent + (if currentContent != "" then SEPARATOR else "") + transcript;
    }
    if |currentContent| > 0 {
      CloseGroup(transcripts, ends, outputFiles, |transcripts|, currentContent);
      outputFiles := outputFiles + [File(fileIndex, currentContent)];
      ends := ends + [|transcripts|];
    }
    forall other | IsPacking(transcripts, other) ensures |outputFiles| <= |other| {
      SaturatedIsMinimal(transcripts, ends, other);
    }
  }
}
