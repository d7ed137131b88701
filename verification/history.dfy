/** The per-category lookup history kept by the application: each category
    holds its most recent entries, oldest first, at most 25 of them. */
module History {
  import opened Base

  /** The number of entries a category keeps. */
  const HistoryCap: nat := 25

  /** One entry: the local time of the lookup, already formatted, and what
      was looked up. */
  datatype Record = Record(time: string, entry: string)

  type Log = map<string, seq<Record>>

  /** The last `HistoryCap` records of `s`, or all of them when there are fewer. */
  function Recent(s: seq<Record>): (r: seq<Record>)
    ensures |r| == Min(|s|, HistoryCap)
  {
    if |s| > HistoryCap then s[|s| - HistoryCap..] else s
  }

  /** The records kept are the newest ones, in their original order. */
  lemma RecentIsNewest(s: seq<Record>)
    ensures EndsWith(s, Recent(s))
  {
  }

  /** The records `category` holds, none when it is missing. */
  function Prior(h: Log, category: string): seq<Record> {
    if category in h then h[category] else []
  }

  /** Records `entry` at time `stamp` under `category`, creating the category
      when it is missing and dropping the oldest record beyond the cap. */
  function AddHistory(h: Log, category: string, entry: string, stamp: string): Log {
    h[category := Recent(Prior(h, category) + [Record(stamp, entry)])]
  }

  /** Appending then trimming keeps at most `HistoryCap` records, ends with
      the new one, and keeps the newest records in their original order. */
  lemma AppendRecent(prior: seq<Record>, r: Record)
    ensures var kept := Recent(prior + [r]);
      && |kept| == Min(|prior| + 1, HistoryCap)
      && kept[|kept| - 1] == r
      && EndsWith(prior + [r], kept)
  {
    var appended := prior + [r];
    var kept := Recent(appended);
    RecentIsNewest(appended);
    assert kept[|kept| - 1] == appended[|appended| - 1];
  }

  /** After an addition the category exists, its newest record is the one
      just added, it holds the newest `HistoryCap` of its earlier records and
      the new one, and every other category is as it was. */
  lemma AddHistorySpec(h: Log, category: string, entry: string, stamp: string)
    ensures var h' := AddHistory(h, category, entry, stamp);
      var appended := Prior(h, category) + [Record(stamp, entry)];
      && h'.Keys == h.Keys + {category}
      && h' - {category} == h - {category}
      && |h'[category]| == Min(|Prior(h, category)| + 1, HistoryCap)
      && h'[category][|h'[category]| - 1] == Record(stamp, entry)
      && EndsWith(appended, h'[category])
  {
    var kept := Recent(Prior(h, category) + [Record(stamp, entry)]);
    UpdateTouchesOne(h, category, kept);
    AppendRecent(Prior(h, category), Record(stamp, entry));
  }

  lemma UpdateTouchesOne(h: Log, category: string, kept: seq<Record>)
    ensures h[category := kept].Keys == h.Keys + {category}
    ensures h[category := kept] - {category} == h - {category}
    ensures h[category := kept][category] == kept
  {
  }

  /** Appends the lookups one after another, each with its own time stamp. */
  function AddAll(h: Log, category: string, records: seq<Record>): Log
    decreases |records|
  {
    if records == [] then h
    else AddAll(AddHistory(h, category, records[0].entry, records[0].time), category, records[1..])
  }

  /** Trimming before more records arrive loses nothing that the final
      trim would keep. */
  lemma RecentOfRecent(s: seq<Record>, t: seq<Record>)
    ensures Recent(Recent(s) + t) == Recent(s + t)
  {
    var a, b := Recent(Recent(s) + t), Recent(s + t);
    assert |a| == |b|;
    forall i | 0 <= i < |a|
      ensures a[i] == b[i]
    {
      var k := |a| - i;
      if k <= |t| {
        assert a[i] == t[|t| - k] == b[i];
      }
    }
  }

  /** After one or more lookups in one category, it holds exactly the last
      25 of its earlier records followed by the new ones, and no other
      category changed. */
  lemma {:induction false} AddAllKeepsRecent(h: Log, category: string, records: seq<Record>)
    requires records != []
    ensures AddAll(h, category, records).Keys == h.Keys + {category}
    ensures AddAll(h, category, records)[category] == Recent(Prior(h, category) + records)
    ensures AddAll(h, category, records) - {category} == h - {category}
    decreases |records|
  {
    var r, rest := records[0], records[1..];
    var h1 := AddHistory(h, category, r.entry, r.time);
    assert AddAll(h, category, records) == AddAll(h1, category, rest);
    assert h1 - {category} == h - {category};
    if rest == [] {
      assert records == [r];
    } else {
      AddAllKeepsRecent(h1, category, rest);
      RecentOfRecent(Prior(h, category) + [r], rest);
      SplitFirst(Prior(h, category), records);
    }
  }

  lemma SplitFirst(p: seq<Record>, s: seq<Record>)
    requires s != []
    ensures p + s == (p + [s[0]]) + s[1..]
  {
    assert s == [s[0]] + s[1..];
  }
}
