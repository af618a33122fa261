/**
 * groupContent (main.go:528-572): items go into buckets keyed by the `%v` form
 * of one metadata field ("Unknown" when the field is absent), LIMIT caps every
 * bucket, the bucket keys are put in NaturalSort order, GROUP BY <n> keeps the
 * first n keys, and each group is printed as a "- key" line followed by its
 * items in the layout of the query type.
 */
module Grouping {
  import opened Values
  import opened Ast
  import opened Sorting

  type Groups = map<string, seq<string>>

  /** The bucket key of an item whose metadata is `md` (main.go:532-536). */
  function GroupKey(md: Metadata, field: string): string {
    if field in md then Stringify(md[field]) else "Unknown"
  }

  /** `groups[key]`, which is empty for a key with no bucket. */
  function Bucket(groups: Groups, key: string): seq<string> {
    if key in groups then groups[key] else []
  }

  /** The buckets after the items `content` (main.go:531-541). */
  function Buckets(content: seq<string>, mds: seq<Metadata>, field: string, limit: int): Groups
    requires |content| <= |mds|
    decreases |content|
  {
    if content == [] then map[]
    else
      var n := |content| - 1;
      var groups := Buckets(content[..n], mds, field, limit);
      var key := GroupKey(mds[n], field);
      if limit > 0 && |Bucket(groups, key)| >= limit then groups
      else groups[key := Bucket(groups, key) + [content[n]]]
  }

  // ---------------------------------------------------------------------------
  // What a bucket holds

  /** The items whose key is `key`, in their original order. */
  function Matching(content: seq<string>, mds: seq<Metadata>, field: string, key: string): seq<string>
    requires |content| <= |mds|
    decreases |content|
  {
    if content == [] then []
    else
      var n := |content| - 1;
      Matching(content[..n], mds, field, key) + (if GroupKey(mds[n], field) == key then [content[n]] else [])
  }

  /** The first `limit` items of `s` when `limit` is positive, all of them otherwise. */
  function Take(s: seq<string>, limit: int): (r: seq<string>)
    ensures r <= s
    ensures limit > 0 ==> |r| <= limit
    ensures |r| < |s| ==> limit > 0 && |r| == limit
  {
    if limit > 0 && |s| > limit then s[..limit] else s
  }

  /**
   * A key has a bucket iff some item has that key, and its bucket holds the
   * first LIMIT items with that key (all of them when LIMIT is not positive),
   * in their original order.
   */
  lemma {:induction false} BucketsHold(content: seq<string>, mds: seq<Metadata>, field: string, limit: int, key: string)
    requires |content| <= |mds|
    ensures var groups := Buckets(content, mds, field, limit);
      (key in groups <==> Matching(content, mds, field, key) != []) &&
      Bucket(groups, key) == Take(Matching(content, mds, field, key), limit)
    decreases |content|
  {
    if content != [] {
      var n := |content| - 1;
      BucketsHold(content[..n], mds, field, limit, key);
      var m := Matching(content[..n], mds, field, key);
      if GroupKey(mds[n], field) == key && limit > 0 && |m| >= limit {
        assert (m + [content[n]])[..limit] == m[..limit];
      }
    }
  }

  /** With a positive LIMIT no bucket holds more than LIMIT items. */
  lemma BucketCap(content: seq<string>, mds: seq<Metadata>, field: string, limit: int, key: string)
    requires |content| <= |mds| && limit > 0
    ensures |Bucket(Buckets(content, mds, field, limit), key)| <= limit
  {
    BucketsHold(content, mds, field, limit, key);
  }

  // ---------------------------------------------------------------------------
  // The order of the keys

  /** No two neighbours are in descending NaturalSort order. */
  predicate NoDescent(keys: seq<string>) {
    forall k :: 0 <= k < |keys| - 1 ==> !NaturalLess(keys[k + 1], keys[k])
  }

  /**
   * An order that Go's insertion sort with the NaturalSort comparator can
   * leave the bucket keys in: each key once, and no neighbours out of order.
   * sort.Slice sorts this way when there are at most 12 keys. NaturalSort is
   * not transitive, so this does not make the order unique; with more keys,
   * the partitioning and heapsort steps of sort.Slice can leave a pair of
   * neighbours out of order, and such an order is not covered here.
   */
  predicate SortedKeys(keys: seq<string>, groups: Groups) {
    multiset(keys) == multiset(groups.Keys) && NoDescent(keys)
  }

  /** `for k := range groups`: the keys, in an order the map leaves unspecified (main.go:544-547). */
  method CollectKeys(groups: Groups) returns (keys: seq<string>)
    ensures multiset(keys) == multiset(groups.Keys)
  {
    keys := [];
    var remaining := groups.Keys;
    while remaining != {}
      invariant multiset(keys) + multiset(remaining) == multiset(groups.Keys)
      decreases |remaining|
    {
      var k :| k in remaining;
      assert multiset(remaining) == multiset(remaining - {k}) + multiset{k} by {
        assert remaining == (remaining - {k}) + {k};
      }
      keys := keys + [k];
      remaining := remaining - {k};
    }
  }

  /**
   * sort.Slice(keys, NaturalSort) as Go's insertion sort performs it: each key
   * is moved left past the keys it sorts before.
   */
  method SortKeys(input: seq<string>) returns (keys: seq<string>)
    ensures multiset(keys) == multiset(input)
    ensures NoDescent(keys)
  {
    keys := input;
    if |keys| < 2 {
      return;
    }
    var i := 1;
    while i < |keys|
      invariant 1 <= i <= |keys|
      invariant multiset(keys) == multiset(input)
      invariant forall k :: 0 <= k < i - 1 ==> !NaturalLess(keys[k + 1], keys[k])
    {
      keys := InsertKey(keys, i);
      i := i + 1;
    }
  }

  /** One pass of the insertion sort: moves `keys[i]` left into the ordered prefix `keys[..i]`. */
  method InsertKey(input: seq<string>, i: nat) returns (keys: seq<string>)
    requires i < |input|
    requires forall k :: 0 <= k < i - 1 ==> !NaturalLess(input[k + 1], input[k])
    ensures multiset(keys) == multiset(input) && |keys| == |input|
    ensures forall k :: 0 <= k < i ==> !NaturalLess(keys[k + 1], keys[k])
    ensures keys[i + 1..] == input[i + 1..]
  {
    keys := input;
    var j := i;
    while j > 0
      invariant 0 <= j <= i && |keys| == |input|
      invariant multiset(keys) == multiset(input)
      invariant keys[i + 1..] == input[i + 1..]
      invariant forall k :: 0 <= k < i && k != j - 1 && k != j ==> !NaturalLess(keys[k + 1], keys[k])
      invariant 0 < j < i ==> !NaturalLess(keys[j + 1], keys[j - 1])
      invariant j < i ==> !NaturalLess(keys[j + 1], keys[j])
    {
      var less := NaturalSort(keys[j], keys[j - 1]);
      if !less {
        break;
      }
      NaturalAsymmetric(keys[j], keys[j - 1]);
      keys := Swap(keys, j - 1, j);
      j := j - 1;
    }
  }

  /** The sequence with the elements at `a` and `b` exchanged. */
  function Swap(s: seq<string>, a: nat, b: nat): (r: seq<string>)
    requires a < |s| && b < |s|
    ensures |r| == |s| && r[a] == s[b] && r[b] == s[a]
    ensures forall k :: 0 <= k < |s| && k != a && k != b ==> r[k] == s[k]
    ensures multiset(r) == multiset(s)
  {
    s[a := s[b]][b := s[a]]
  }

  /** `keys[:GroupLimit]` when GROUP BY <n> asks for fewer groups than there are (main.go:553-555). */
  function CapGroups(keys: seq<string>, groupLimit: int): (r: seq<string>)
    ensures r <= keys
    ensures |r| == if 0 < groupLimit < |keys| then groupLimit else |keys|
  {
    if groupLimit > 0 && |keys| > groupLimit then keys[..groupLimit] else keys
  }

  // ---------------------------------------------------------------------------
  // Printing the groups

  /** How one item of a group is printed (main.go:560-565); LIST items are not printed at all. */
  function ItemLine(qtype: QueryType, item: string): string {
    match qtype
    case TaskQuery | UnorderedListQuery | OrderedListQuery => "    " + item + "\n"
    case ParagraphQuery | FencedCodeQuery => "    " + item + "\n\n"
    case _ => ""
  }

  /** `f` applied to each element of `s`, the results written one after the other. */
  function Concat(f: string -> string, s: seq<string>): string
    decreases |s|
  {
    if s == [] then "" else Concat(f, s[..|s| - 1]) + f(s[|s| - 1])
  }

  /** The items of a group, each in the layout of the query type. */
  function ItemLines(qtype: QueryType, items: seq<string>): string {
    Concat(LineOf(qtype), items)
  }

  /** ItemLine, for one query type. */
  function LineOf(qtype: QueryType): string -> string {
    item => ItemLine(qtype, item)
  }

  /** One group: its "- key" line, its items, and a blank line. */
  function Section(qtype: QueryType, key: string, items: seq<string>): string {
    "- " + key + "\n" + ItemLines(qtype, items) + "\n"
  }

  /** The groups of `keys`, one after the other. */
  function Render(qtype: QueryType, keys: seq<string>, groups: Groups): string {
    Concat(SectionOf(qtype, groups), keys)
  }

  /** The section of a key, for one query type and one set of buckets. */
  function SectionOf(qtype: QueryType, groups: Groups): string -> string {
    key => Section(qtype, key, Bucket(groups, key))
  }

  /** The printing loop of main.go:557-568. */
  method RenderGroups(qtype: QueryType, keys: seq<string>, groups: Groups) returns (out: string)
    ensures out == Render(qtype, keys, groups)
  {
    out := "";
    var i := 0;
    while i < |keys|
      invariant 0 <= i <= |keys|
      invariant out == Render(qtype, keys[..i], groups)
    {
      var key := keys[i];
      assert keys[..i + 1][..i] == keys[..i];
      var header := "- " + key + "\n";
      var lines := RenderItems(qtype, Bucket(groups, key));
      out := out + (header + lines + "\n");
      i := i + 1;
    }
    assert keys[..i] == keys;
  }

  /** The inner loop of main.go:559-566: the items of one group in the layout of the query type. */
  method RenderItems(qtype: QueryType, items: seq<string>) returns (out: string)
    ensures out == ItemLines(qtype, items)
  {
    out := "";
    var j := 0;
    while j < |items|
      invariant 0 <= j <= |items|
      invariant out == ItemLines(qtype, items[..j])
    {
      assert items[..j + 1][..j] == items[..j];
      ghost var line := ItemLine(qtype, items[j]);
      if qtype.TaskQuery? || qtype.UnorderedListQuery? || qtype.OrderedListQuery? {
        assert line == "    " + items[j] + "\n";
        out := out + ("    " + items[j] + "\n");
      } else if qtype.ParagraphQuery? || qtype.FencedCodeQuery? {
        assert line == "    " + items[j] + "\n\n";
        out := out + ("    " + items[j] + "\n\n");
      } else {
        assert line == "";
        assert out + line == out;
      }
      j := j + 1;
    }
    assert items[..j] == items;
  }

  /**
   * The output of groupContent for the buckets `groups`: the groups of some
   * order sort.Slice can produce, cut to the first GROUP BY <n> keys.
   */
  ghost predicate GroupedAs(out: string, qtype: QueryType, groups: Groups, groupLimit: int) {
    exists keys :: SortedKeys(keys, groups) && out == Render(qtype, CapGroups(keys, groupLimit), groups)
  }

  /** The bucketing loop of main.go:531-541. */
  method BucketItems(content: seq<string>, mds: seq<Metadata>, field: string, limit: int) returns (groups: Groups)
    requires |content| <= |mds|
    ensures groups == Buckets(content, mds, field, limit)
  {
    groups := map[];
    var i := 0;
    while i < |content|
      invariant 0 <= i <= |content|
      invariant groups == Buckets(content[..i], mds, field, limit)
    {
      assert content[..i + 1][..i] == content[..i];
      var groupKey := if field in mds[i] then Stringify(mds[i][field]) else "Unknown";
      var bucket := if groupKey in groups then groups[groupKey] else [];
      if !(limit > 0 && |bucket| >= limit) {
        groups := groups[groupKey := bucket + [content[i]]];
      }
      i := i + 1;
    }
    assert content[..i] == content;
  }

  /** groupContent (main.go:528-572). */
  method GroupContent(content: seq<string>, mds: seq<Metadata>, q: Query) returns (out: string)
    requires |content| <= |mds|
    ensures GroupedAs(out, q.qtype, Buckets(content, mds, q.groupBy, q.limit), q.groupLimit)
  {
    var groups := BucketItems(content, mds, q.groupBy, q.limit);
    var keys := CollectKeys(groups);
    var sorted := SortKeys(keys);
    keys := sorted;
    if q.groupLimit > 0 && |keys| > q.groupLimit {
      keys := keys[..q.groupLimit];
    }
    out := RenderGroups(q.qtype, keys, groups);
    assert SortedKeys(sorted, groups);
  }

  // ---------------------------------------------------------------------------
  // Properties of the printed groups

  /** Writing out `a + b` is writing out `a`, then `b`. */
  lemma {:induction false} ConcatAppend(f: string -> string, a: seq<string>, b: seq<string>)
    ensures Concat(f, a + b) == Concat(f, a) + Concat(f, b)
    decreases |b|
  {
    if b != [] {
      var n := |b| - 1;
      assert Concat(f, a + b) == Concat(f, a + b[..n]) + f(b[n]) by {
        assert (a + b)[..|a| + n] == a + b[..n];
        assert (a + b)[|a| + n] == b[n];
      }
      ConcatAppend(f, a, b[..n]);
    } else {
      assert a + b == a;
    }
  }

  /** Printing a sequence of keys is printing each part in turn. */
  lemma RenderAppend(qtype: QueryType, k1: seq<string>, k2: seq<string>, groups: Groups)
    ensures Render(qtype, k1 + k2, groups) == Render(qtype, k1, groups) + Render(qtype, k2, groups)
  {
    ConcatAppend(SectionOf(qtype, groups), k1, k2);
  }

  /** Each item on its own line, indented by four spaces. */
  function IndentedLines(items: seq<string>): string
    decreases |items|
  {
    if items == [] then "" else "    " + items[0] + "\n" + IndentedLines(items[1..])
  }

  /** A TASK query prints every item of a group on its own indented line. */
  lemma {:induction false} TaskItemLines(items: seq<string>)
    ensures ItemLines(TaskQuery, items) == IndentedLines(items)
    decreases |items|
  {
    if items != [] {
      TaskItemLines(items[1..]);
      ConcatCons(LineOf(TaskQuery), items);
    }
  }

  /** A LIST query prints the header of each group and nothing under it. */
  lemma {:induction false} ListItemsHidden(key: string, items: seq<string>)
    ensures ItemLines(ListQuery, items) == ""
    ensures Section(ListQuery, key, items) == "- " + key + "\n\n"
    decreases |items|
  {
    if items != [] {
      ListItemsHidden(key, items[..|items| - 1]);
    }
  }

  /** Writing out a non-empty sequence is writing out its first element, then the rest. */
  lemma ConcatCons(f: string -> string, s: seq<string>)
    requires s != []
    ensures Concat(f, s) == f(s[0]) + Concat(f, s[1..])
  {
    ConcatAppend(f, [s[0]], s[1..]);
    assert [s[0]] + s[1..] == s;
    assert [s[0]][..0] == [];
  }
}
