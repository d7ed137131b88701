/** The text block shown for one stats category (overall, solo, duo, squad,
    LTM): a header, one `label: value` line per known statistic the category
    has, in a fixed order, and a blank line, joined with newlines. Values are
    taken as already rendered to text. */
module StatFormat {
  import opened Base

  /** The statistics shown, in display order, each with its label. */
  const StatKeys: seq<(string, string)> := [
    ("score", "Score"),
    ("scorePerMin", "Score Per Minute"),
    ("scorePerMatch", "Score Per Match"),
    ("wins", "Wins"),
    ("top3", "Top 3 Finishes"),
    ("top5", "Top 5 Finishes"),
    ("top6", "Top 6 Finishes"),
    ("top10", "Top 10 Finishes"),
    ("top12", "Top 12 Finishes"),
    ("top25", "Top 25 Finishes"),
    ("kills", "Kills"),
    ("killsPerMin", "Kills Per Minute"),
    ("killsPerMatch", "Kills Per Match"),
    ("deaths", "Deaths"),
    ("kd", "K/D Ratio"),
    ("matches", "Matches Played"),
    ("winRate", "Win Rate (%)"),
    ("minutesPlayed", "Minutes Played"),
    ("playersOutlived", "Players Outlived"),
    ("lastModified", "Last Modified")
  ]

  type Stats = map<string, string>

  function Header(name: string): string {
    "=== " + name + " Stats ==="
  }

  function StatLine(title: string, value: string): string {
    title + ": " + value
  }

  /** The loop over the key list from position `from` on: a line for each
      key the category has. */
  function BodyLines(keys: seq<(string, string)>, stats: Stats, from: nat): seq<string>
    decreases |keys| - from
  {
    if from >= |keys| then []
    else
      var here := if keys[from].0 in stats then [StatLine(keys[from].1, stats[keys[from].0])] else [];
      here + BodyLines(keys, stats, from + 1)
  }

  /** The positions, from `from` on, of the keys the category has. */
  function Picks(keys: seq<(string, string)>, stats: Stats, from: nat): (p: seq<nat>)
    ensures forall i :: 0 <= i < |p| ==> from <= p[i] < |keys|
    ensures forall k :: from <= k < |keys| ==> (keys[k].0 in stats <==> k in p)
    decreases |keys| - from
  {
    if from >= |keys| then []
    else (if keys[from].0 in stats then [from] else []) + Picks(keys, stats, from + 1)
  }

  /** The positions come in key-list order, each once. */
  lemma {:induction false} PicksIncreasing(keys: seq<(string, string)>, stats: Stats, from: nat)
    ensures forall i, j :: 0 <= i < j < |Picks(keys, stats, from)| ==>
      Picks(keys, stats, from)[i] < Picks(keys, stats, from)[j]
    decreases |keys| - from
  {
    if from < |keys| {
      var p, p' := Picks(keys, stats, from), Picks(keys, stats, from + 1);
      PicksIncreasing(keys, stats, from + 1);
      if keys[from].0 in stats {
        assert p == [from] + p';
        forall i, j | 0 <= i < j < |p|
          ensures p[i] < p[j]
        {
          assert p[j] == p'[j - 1] >= from + 1;
          if i > 0 {
            assert p[i] == p'[i - 1];
          }
        }
      } else {
        assert p == p';
      }
    }
  }

  /** The lines of the block for the key list `keys`, before they are joined. */
  function FormatLines(name: string, keys: seq<(string, string)>, stats: Stats): seq<string> {
    [Header(name)] + BodyLines(keys, stats, 0) + [""]
  }

  /** `"\n".join(lines)`. */
  function Join(lines: seq<string>): string {
    if lines == [] then ""
    else if |lines| == 1 then lines[0]
    else lines[0] + "\n" + Join(lines[1..])
  }

  /** `format_stat_category(name, stats)`. */
  function FormatStatCategory(name: string, stats: Stats): string {
    Join(FormatLines(name, StatKeys, stats))
  }

  /** The body has one line per present key, in the order of the key list:
      line `i` is the labelled value of the `i`-th present key. */
  lemma {:induction false} BodyLinesFollowPicks(keys: seq<(string, string)>, stats: Stats, from: nat)
    ensures |BodyLines(keys, stats, from)| == |Picks(keys, stats, from)|
    ensures forall i :: 0 <= i < |Picks(keys, stats, from)| ==>
      var k := keys[Picks(keys, stats, from)[i]];
      k.0 in stats && BodyLines(keys, stats, from)[i] == StatLine(k.1, stats[k.0])
    decreases |keys| - from
  {
    if from < |keys| {
      var lines, p := BodyLines(keys, stats, from), Picks(keys, stats, from);
      var lines', p' := BodyLines(keys, stats, from + 1), Picks(keys, stats, from + 1);
      BodyLinesFollowPicks(keys, stats, from + 1);
      if keys[from].0 in stats {
        assert lines == [StatLine(keys[from].1, stats[keys[from].0])] + lines';
        assert p == [from] + p';
      } else {
        assert lines == lines' && p == p';
      }
    }
  }

  /** The lines of a block: the header first, the blank line last, and in
      between exactly the present statistics in key-list order. */
  lemma FormatLinesShape(name: string, keys: seq<(string, string)>, stats: Stats)
    ensures var lines, p := FormatLines(name, keys, stats), Picks(keys, stats, 0);
      && |lines| == |p| + 2
      && lines[0] == "=== " + name + " Stats ==="
      && lines[|lines| - 1] == ""
      && forall i :: 0 <= i < |p| ==> lines[i + 1] == keys[p[i]].1 + ": " + stats[keys[p[i]].0]
  {
    var lines, body := FormatLines(name, keys, stats), BodyLines(keys, stats, 0);
    BodyLinesFollowPicks(keys, stats, 0);
    assert |lines| == |body| + 2;
    assert forall i :: 0 <= i < |body| ==> lines[i + 1] == body[i];
  }

  /** Whatever else the category holds does not change the block: only the
      listed statistics are looked at. */
  lemma {:induction false} BodyLinesIgnoreOthers(keys: seq<(string, string)>, s1: Stats, s2: Stats, from: nat)
    requires forall i :: 0 <= i < |keys| ==> (keys[i].0 in s1 <==> keys[i].0 in s2)
    requires forall i :: 0 <= i < |keys| && keys[i].0 in s1 ==> s1[keys[i].0] == s2[keys[i].0]
    ensures BodyLines(keys, s1, from) == BodyLines(keys, s2, from)
    decreases |keys| - from
  {
    if from < |keys| {
      BodyLinesIgnoreOthers(keys, s1, s2, from + 1);
    }
  }

  lemma FormatIgnoresOthers(name: string, stats: Stats, other: string)
    requires forall i :: 0 <= i < |StatKeys| ==> StatKeys[i].0 != other
    ensures FormatStatCategory(name, stats) == FormatStatCategory(name, stats - {other})
  {
    BodyLinesIgnoreOthers(StatKeys, stats, stats - {other}, 0);
  }

  /** Splits at every newline, as `str.split("\n")` does. */
  function Split(s: string): (parts: seq<string>)
    ensures |parts| >= 1
  {
    if s == [] then [""]
    else
      var rest := Split(s[1..]);
      if s[0] == '\n' then [""] + rest else [[s[0]] + rest[0]] + rest[1..]
  }

  lemma {:induction false} SplitNoNewline(a: string, b: string)
    requires '\n' !in a
    ensures Split(a + b) == [a + Split(b)[0]] + Split(b)[1..]
  {
    var sb := Split(b);
    if a == [] {
      assert a + b == b && a + sb[0] == sb[0];
      assert [sb[0]] + sb[1..] == sb;
    } else {
      assert (a + b)[0] == a[0] && (a + b)[1..] == a[1..] + b;
      SplitNoNewline(a[1..], b);
      var rest := Split(a[1..] + b);
      assert rest[0] == a[1..] + sb[0] && rest[1..] == sb[1..];
      assert [a[0]] + (a[1..] + sb[0]) == a + sb[0];
    }
  }

  /** Joining lines that hold no newline and splitting the text again gives
      back the lines. */
  lemma {:induction false} SplitJoin(lines: seq<string>)
    requires lines != []
    requires forall i :: 0 <= i < |lines| ==> '\n' !in lines[i]
    ensures Split(Join(lines)) == lines
  {
    if |lines| == 1 {
      SplitNoNewline(lines[0], "");
      assert lines[0] + "" == lines[0];
    } else {
      var rest := Join(lines[1..]);
      SplitJoin(lines[1..]);
      assert Join(lines) == lines[0] + ("\n" + rest);
      SplitNoNewline(lines[0], "\n" + rest);
      assert ("\n" + rest)[0] == '\n' && ("\n" + rest)[1..] == rest;
      var tail := Split("\n" + rest);
      assert tail == [""] + lines[1..];
      assert tail[0] == "" && tail[1..] == lines[1..];
      assert lines[0] + "" == lines[0];
      assert lines == [lines[0]] + lines[1..];
    }
  }

  /** No label of `keys` holds a newline. */
  predicate PlainTitles(keys: seq<(string, string)>) {
    forall i :: 0 <= i < |keys| ==> '\n' !in keys[i].1
  }

  /** When the name and the values hold no newline, the block is exactly
      its lines joined: splitting it at newlines recovers the header, the
      statistic lines and the blank line. */
  lemma FormatSplits(name: string, keys: seq<(string, string)>, stats: Stats)
    requires '\n' !in name
    requires PlainTitles(keys)
    requires forall k :: k in stats ==> '\n' !in stats[k]
    ensures Split(Join(FormatLines(name, keys, stats))) == FormatLines(name, keys, stats)
  {
    var lines := FormatLines(name, keys, stats);
    var p := Picks(keys, stats, 0);
    FormatLinesShape(name, keys, stats);
    forall i | 0 <= i < |lines|
      ensures '\n' !in lines[i]
    {
      if i == 0 {
        assert lines[0] == "=== " + name + " Stats ===";
      } else if i < |lines| - 1 {
        var k := keys[p[i - 1]];
        assert lines[i] == k.1 + ": " + stats[k.0];
      }
    }
    SplitJoin(lines);
  }

  lemma StatKeysPlain()
    ensures PlainTitles(StatKeys)
  {
    FrontTitlesPlain();
    BackTitlesPlain();
    var front, back := StatKeys[..10], StatKeys[10..];
    forall i | 0 <= i < |StatKeys|
      ensures '\n' !in StatKeys[i].1
    {
      if i < 10 {
        assert StatKeys[i] == front[i];
      } else {
        assert StatKeys[i] == back[i - 10];
      }
    }
  }

  lemma FrontTitlesPlain()
    ensures PlainTitles(StatKeys[..10])
  {
  }

  lemma BackTitlesPlain()
    ensures PlainTitles(StatKeys[10..])
  {
  }

  /** For the real key list the text splits back into its lines, whose
      shape `FormatLinesShape` gives. */
  lemma FormatStatCategorySplits(name: string, stats: Stats)
    requires '\n' !in name
    requires forall k :: k in stats ==> '\n' !in stats[k]
    ensures Split(FormatStatCategory(name, stats)) == FormatLines(name, StatKeys, stats)
  {
    StatKeysPlain();
    FormatSplits(name, StatKeys, stats);
  }
}
