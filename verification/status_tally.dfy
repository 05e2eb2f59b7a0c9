/** How the failover fetcher of server-improved.js picks the "most common" status
    of its failed attempts: it tallies the keys into a plain JavaScript object,
    enumerates that object with `Object.entries`, sorts the entries by count
    (greatest first, stably) and takes the first key, defaulting to '503'.

    The enumeration order of a JavaScript object decides ties: keys that are
    array indices come first in ascending numeric order, then the other keys in
    insertion order. So a tie is not broken by first occurrence. */
module StatusTally {
  import opened Network

  /** How often `k` occurs among `keys`. */
  function Count(keys: seq<StatusKey>, k: StatusKey): nat
  {
    multiset(keys)[k]
  }

  /** The position of the first occurrence of `k` in `keys`. */
  function FirstIndex(keys: seq<StatusKey>, k: StatusKey): (i: nat)
    requires k in keys
    ensures i < |keys| && keys[i] == k
    ensures forall j :: 0 <= j < i ==> keys[j] != k
  {
    if keys[0] == k then 0 else 1 + FirstIndex(keys[1..], k)
  }

  /** A key JavaScript treats as an array index: the decimal string of an integer in 0 .. 2^32 - 2. */
  predicate IsArrayIndex(k: StatusKey)
  {
    k.Code? && 0 <= k.n < 0xFFFF_FFFF
  }

  /** The order in which `Object.entries` lists the keys of a tally of `keys`,
      stated independently of how the tally is built: array indices first, in
      ascending numeric order, then the other keys by first insertion. */
  predicate Precedes(keys: seq<StatusKey>, a: StatusKey, b: StatusKey)
    requires a in keys && b in keys
  {
    if IsArrayIndex(a) then !IsArrayIndex(b) || a.n < b.n
    else !IsArrayIndex(b) && FirstIndex(keys, a) < FirstIndex(keys, b)
  }

  /** The `errorCounts` object: its own keys in insertion order, and the count held under each. */
  datatype Tally = Tally(order: seq<StatusKey>, counts: map<StatusKey, nat>)

  /** `errorCounts[key] = (errorCounts[key] || 0) + 1` */
  function Record(t: Tally, k: StatusKey): Tally
  {
    if k in t.counts then Tally(t.order, t.counts[k := t.counts[k] + 1])
    else Tally(t.order + [k], t.counts[k := 1])
  }

  /** `order` lists keys of `keys`, each before every key that first occurs later;
      in particular no key is listed twice. */
  predicate InFirstOccurrenceOrder(keys: seq<StatusKey>, order: seq<StatusKey>)
  {
    && (forall k :: k in order ==> k in keys)
    && (forall i, j :: 0 <= i < j < |order| ==> FirstIndex(keys, order[i]) < FirstIndex(keys, order[j]))
  }

  lemma {:induction false} FirstIndexOfExtension(keys: seq<StatusKey>, x: StatusKey, k: StatusKey)
    requires k in keys
    ensures k in keys + [x] && FirstIndex(keys + [x], k) == FirstIndex(keys, k)
  {
    if keys[0] != k {
      assert (keys + [x])[1..] == keys[1..] + [x];
      FirstIndexOfExtension(keys[1..], x, k);
    }
  }

  /** Appending a key moves no earlier key's first occurrence. */
  lemma FirstIndicesOfExtension(front: seq<StatusKey>, x: StatusKey)
    ensures forall k :: k in front ==> k in front + [x] && FirstIndex(front + [x], k) == FirstIndex(front, k) < |front|
  {
    forall k | k in front
      ensures k in front + [x] && FirstIndex(front + [x], k) == FirstIndex(front, k) < |front|
    {
      FirstIndexOfExtension(front, x, k);
    }
  }

  /** Recording `x` after the keys of `front` keeps the tally's keys in first-occurrence order. */
  lemma RecordKeepsOrder(front: seq<StatusKey>, x: StatusKey, t: Tally)
    requires forall k :: k in t.counts <==> k in front
    requires forall k :: k in t.order <==> k in front
    requires InFirstOccurrenceOrder(front, t.order)
    ensures InFirstOccurrenceOrder(front + [x], Record(t, x).order)
  {
    FirstIndicesOfExtension(front, x);
    if x in front {
      RepeatKeepsOrder(front, x, t.order);
    } else {
      NewKeyKeepsOrder(front, x, t.order);
    }
  }

  /** Appending a key to the keys leaves a valid order valid; in particular a key seen
      before, which leaves the order as it was. */
  lemma RepeatKeepsOrder(front: seq<StatusKey>, x: StatusKey, order: seq<StatusKey>)
    requires forall k :: k in order ==> k in front
    requires InFirstOccurrenceOrder(front, order)
    requires forall k :: k in front ==> k in front + [x] && FirstIndex(front + [x], k) == FirstIndex(front, k) < |front|
    ensures InFirstOccurrenceOrder(front + [x], order)
  {
    var keys := front + [x];
    forall i, j | 0 <= i < j < |order|
      ensures FirstIndex(keys, order[i]) < FirstIndex(keys, order[j])
    {
      assert order[i] in front && order[j] in front;
    }
  }

  /** A new key goes to the end of the order, after every key seen before. */
  lemma NewKeyKeepsOrder(front: seq<StatusKey>, x: StatusKey, order: seq<StatusKey>)
    requires x !in front
    requires forall k :: k in order ==> k in front
    requires InFirstOccurrenceOrder(front, order)
    requires forall k :: k in front ==> k in front + [x] && FirstIndex(front + [x], k) == FirstIndex(front, k) < |front|
    ensures InFirstOccurrenceOrder(front + [x], order + [x])
  {
    var keys := front + [x];
    RepeatKeepsOrder(front, x, order);
    assert FirstIndex(keys, x) == |front|;
    AppendLastInOrder(keys, order, x);
  }

  /** A key that first occurs after every listed key may be listed last. */
  lemma AppendLastInOrder(keys: seq<StatusKey>, order: seq<StatusKey>, x: StatusKey)
    requires InFirstOccurrenceOrder(keys, order) && x in keys
    requires forall k :: k in order ==> FirstIndex(keys, k) < FirstIndex(keys, x)
    ensures InFirstOccurrenceOrder(keys, order + [x])
  {
    var o := order + [x];
    forall i, j | 0 <= i < j < |o|
      ensures FirstIndex(keys, o[i]) < FirstIndex(keys, o[j])
    {
      assert o[i] == order[i] && order[i] in order;
      if j < |order| {
        assert o[j] == order[j];
      }
    }
  }

  /** `errors.forEach(...)`: the tally after recording every key, left to right. */
  function TallyOf(keys: seq<StatusKey>): (t: Tally)
    ensures forall k :: k in t.counts <==> k in keys
    ensures forall k :: k in t.counts ==> t.counts[k] == Count(keys, k)
    ensures forall k :: k in t.order <==> k in keys
    ensures InFirstOccurrenceOrder(keys, t.order)
  {
    if |keys| == 0 then Tally([], map[])
    else
      var front, x := keys[..|keys| - 1], keys[|keys| - 1];
      assert keys == front + [x];
      var t0 := TallyOf(front);
      RecordKeepsOrder(front, x, t0);
      Record(t0, x)
  }

  predicate Ascending(s: seq<int>)
  {
    forall i, j :: 0 <= i < j < |s| ==> s[i] <= s[j]
  }

  predicate StrictlyAscending(s: seq<int>)
  {
    forall i, j :: 0 <= i < j < |s| ==> s[i] < s[j]
  }

  predicate NoRepeats<T(==)>(s: seq<T>)
  {
    forall i, j :: 0 <= i < j < |s| ==> s[i] != s[j]
  }

  function InsertAscending(x: int, s: seq<int>): (r: seq<int>)
    requires Ascending(s)
    ensures multiset(r) == multiset(s) + multiset{x}
    ensures |r| == |s| + 1 && r[0] == (if |s| == 0 || x <= s[0] then x else s[0])
    ensures Ascending(r)
  {
    if |s| == 0 || x <= s[0] then [x] + s
    else
      var tail := s[1..];
      assert s == [s[0]] + tail;
      [s[0]] + InsertAscending(x, tail)
  }

  lemma {:induction false} InsertAscendingStrict(x: int, s: seq<int>)
    requires StrictlyAscending(s) && x !in s
    ensures StrictlyAscending(InsertAscending(x, s))
  {
    if |s| > 0 && x > s[0] {
      var tail := s[1..];
      assert s == [s[0]] + tail;
      assert StrictlyAscending(tail) && x !in tail;
      InsertAscendingStrict(x, tail);
      var rest := InsertAscending(x, tail);
      assert rest[0] == x || rest[0] == tail[0];
      ConsStrict(s[0], rest);
      assert InsertAscending(x, s) == [s[0]] + rest;
    } else {
      assert |s| > 0 ==> x != s[0];
      ConsStrict(x, s);
      assert InsertAscending(x, s) == [x] + s;
    }
  }

  /** A number below the head of a strictly ascending list may go in front of it. */
  lemma ConsStrict(a: int, s: seq<int>)
    requires StrictlyAscending(s)
    requires |s| > 0 ==> a < s[0]
    ensures StrictlyAscending([a] + s)
  {
    var r := [a] + s;
    forall i, j | 0 <= i < j < |r| ensures r[i] < r[j] {
      assert r[j] == s[j - 1];
      if i > 0 {
        assert r[i] == s[i - 1];
      } else if j > 1 {
        assert s[0] < s[j - 1];
      }
    }
  }

  /** Insertion sort in ascending order; a list without repeats comes out strictly ascending. */
  function SortAscending(s: seq<int>): (r: seq<int>)
    ensures multiset(r) == multiset(s)
    ensures Ascending(r)
    ensures NoRepeats(s) ==> StrictlyAscending(r)
  {
    if |s| == 0 then []
    else
      var head, tail := s[0], s[1..];
      assert s == [head] + tail;
      var rest := SortAscending(tail);
      if NoRepeats(s) then
        NoRepeatsTail(s, rest);
        InsertAscendingStrict(head, rest);
        InsertAscending(head, rest)
      else InsertAscending(head, rest)
  }

  /** Without repeats, the tail has none either and the head is not among (a permutation
      of) the tail. */
  lemma NoRepeatsTail(s: seq<int>, rest: seq<int>)
    requires |s| > 0 && NoRepeats(s) && multiset(rest) == multiset(s[1..])
    ensures NoRepeats(s[1..]) && s[0] !in rest
  {
    var tail := s[1..];
    forall i, j | 0 <= i < j < |tail| ensures tail[i] != tail[j] {
      assert tail[i] == s[i + 1] && tail[j] == s[j + 1];
    }
    forall j | 0 <= j < |tail| ensures tail[j] != s[0] {
      assert tail[j] == s[j + 1];
    }
    assert s[0] !in multiset(tail);
  }

  /** The array-index keys of `order`, as numbers, in their order in `order`. */
  function IndexNumbers(order: seq<StatusKey>): (r: seq<int>)
    ensures forall x :: x in r <==> Code(x) in order && IsArrayIndex(Code(x))
    ensures NoRepeats(order) ==> NoRepeats(r)
  {
    if |order| == 0 then []
    else if IsArrayIndex(order[0]) then [order[0].n] + IndexNumbers(order[1..])
    else IndexNumbers(order[1..])
  }

  /** The keys of `order` that are not array indices, in their order in `order`. */
  function OtherKeys(order: seq<StatusKey>): (r: seq<StatusKey>)
    ensures forall k :: k in r <==> k in order && !IsArrayIndex(k)
  {
    if |order| == 0 then []
    else if IsArrayIndex(order[0]) then OtherKeys(order[1..])
    else [order[0]] + OtherKeys(order[1..])
  }

  lemma {:induction false} OtherKeysKeepOrder(keys: seq<StatusKey>, order: seq<StatusKey>)
    requires InFirstOccurrenceOrder(keys, order)
    ensures InFirstOccurrenceOrder(keys, OtherKeys(order))
  {
    if |order| > 0 {
      assert InFirstOccurrenceOrder(keys, order[1..]) by {
        forall i, j | 0 <= i < j < |order[1..]|
          ensures FirstIndex(keys, order[1..][i]) < FirstIndex(keys, order[1..][j])
        {
          assert order[1..][i] == order[i + 1] && order[1..][j] == order[j + 1];
        }
      }
      OtherKeysKeepOrder(keys, order[1..]);
      if !IsArrayIndex(order[0]) {
        var r := OtherKeys(order);
        assert r == [order[0]] + OtherKeys(order[1..]);
        forall i, j | 0 <= i < j < |r|
          ensures FirstIndex(keys, r[i]) < FirstIndex(keys, r[j])
        {
          if i == 0 {
            assert r[j] in order[1..];
            var j' :| 0 <= j' < |order[1..]| && order[1..][j'] == r[j];
            assert order[j' + 1] == r[j];
          }
        }
      }
    }
  }

  /** The array-index keys of `order` in ascending numeric order. */
  function SortedIndexKeys(order: seq<StatusKey>): (r: seq<StatusKey>)
    ensures |r| == |SortAscending(IndexNumbers(order))|
    ensures forall i :: 0 <= i < |r| ==> r[i] == Code(SortAscending(IndexNumbers(order))[i])
  {
    var idx := SortAscending(IndexNumbers(order));
    seq(|idx|, i requires 0 <= i < |idx| => Code(idx[i]))
  }

  /** The keys `Object.entries` lists for a tally: array indices ascending, then the rest in insertion order. */
  function EntryKeys(order: seq<StatusKey>): seq<StatusKey>
  {
    SortedIndexKeys(order) + OtherKeys(order)
  }

  lemma SortedIndexKeysAreIndices(order: seq<StatusKey>)
    ensures forall k :: k in SortedIndexKeys(order) <==> k in order && IsArrayIndex(k)
  {
    var nums := IndexNumbers(order);
    var idx := SortAscending(nums);
    var r := SortedIndexKeys(order);
    forall k | k in r ensures k in order && IsArrayIndex(k) {
      var i :| 0 <= i < |r| && r[i] == k;
      assert idx[i] in multiset(nums);
    }
    forall k | k in order && IsArrayIndex(k) ensures k in r {
      assert k.n in multiset(nums);
      var i :| 0 <= i < |idx| && idx[i] == k.n;
      assert r[i] == k;
    }
  }

  /** `Object.entries(errorCounts)`: each listed key paired with its count. */
  function Entries(t: Tally): seq<(StatusKey, nat)>
    requires forall k :: k in t.order ==> k in t.counts
  {
    var ks := EntryKeys(t.order);
    SortedIndexKeysAreIndices(t.order);
    seq(|ks|, i requires 0 <= i < |ks| => (ks[i], t.counts[ks[i]]))
  }

  /** Exactly the keys of `order` are listed. */
  lemma EntryKeysMembers(order: seq<StatusKey>)
    ensures forall k :: k in EntryKeys(order) <==> k in order
  {
    SortedIndexKeysAreIndices(order);
  }

  /** The listed keys of a tally built in first-occurrence order follow `Precedes`. */
  lemma EntryKeysOrdered(keys: seq<StatusKey>, order: seq<StatusKey>)
    requires InFirstOccurrenceOrder(keys, order)
    ensures forall k :: k in EntryKeys(order) ==> k in keys
    ensures forall i, j :: 0 <= i < j < |EntryKeys(order)| ==> Precedes(keys, EntryKeys(order)[i], EntryKeys(order)[j])
  {
    var front := SortedIndexKeys(order);
    var others := OtherKeys(order);
    var ks := EntryKeys(order);
    assert ks == front + others;
    FirstOccurrenceNoRepeats(keys, order);
    OtherKeysKeepOrder(keys, order);
    EntryKeysMembers(order);
    SortedIndexKeysAreIndices(order);
    forall i, j | 0 <= i < j < |ks|
      ensures Precedes(keys, ks[i], ks[j])
    {
      ConcatAt(front, others, i);
      ConcatAt(front, others, j);
      if j < |front| {
        FrontPrecedes(keys, order, i, j);
      } else if i >= |front| {
        OthersPrecede(keys, others, i - |front|, j - |front|);
      } else {
        assert ks[i] in front && ks[j] in others;
      }
    }
  }

  lemma ConcatAt<T>(a: seq<T>, b: seq<T>, i: nat)
    requires i < |a| + |b|
    ensures (a + b)[i] == if i < |a| then a[i] else b[i - |a|]
  {
  }

  /** Keys inserted in first-occurrence order are inserted once each. */
  lemma FirstOccurrenceNoRepeats(keys: seq<StatusKey>, order: seq<StatusKey>)
    requires InFirstOccurrenceOrder(keys, order)
    ensures NoRepeats(order)
  {
    forall i, j | 0 <= i < j < |order| ensures order[i] != order[j] {
      assert FirstIndex(keys, order[i]) < FirstIndex(keys, order[j]);
    }
  }

  /** The array-index keys are listed in ascending numeric order. */
  lemma FrontPrecedes(keys: seq<StatusKey>, order: seq<StatusKey>, i: nat, j: nat)
    requires InFirstOccurrenceOrder(keys, order) && NoRepeats(order)
    requires i < j < |SortedIndexKeys(order)|
    ensures SortedIndexKeys(order)[i] in keys && SortedIndexKeys(order)[j] in keys
    ensures Precedes(keys, SortedIndexKeys(order)[i], SortedIndexKeys(order)[j])
  {
    var front := SortedIndexKeys(order);
    SortedIndexKeysAreIndices(order);
    assert front[i] in front && front[j] in front;
    assert StrictlyAscending(SortAscending(IndexNumbers(order)));
  }

  /** The other keys are listed by first occurrence. */
  lemma OthersPrecede(keys: seq<StatusKey>, others: seq<StatusKey>, i: nat, j: nat)
    requires InFirstOccurrenceOrder(keys, others)
    requires forall k :: k in others ==> !IsArrayIndex(k)
    requires i < j < |others|
    ensures others[i] in keys && others[j] in keys
    ensures Precedes(keys, others[i], others[j])
  {
    assert others[i] in others && others[j] in others;
  }

  /** The entries of the tally of `keys` list every key, with its count, in `Precedes` order. */
  lemma EntriesOfTally(keys: seq<StatusKey>)
    ensures forall i :: 0 <= i < |Entries(TallyOf(keys))| ==>
              Entries(TallyOf(keys))[i].0 in keys
              && Entries(TallyOf(keys))[i].1 == Count(keys, Entries(TallyOf(keys))[i].0)
    ensures forall k :: k in keys ==>
              exists i :: 0 <= i < |Entries(TallyOf(keys))| && Entries(TallyOf(keys))[i].0 == k
    ensures forall i, j :: 0 <= i < j < |Entries(TallyOf(keys))| ==>
              Precedes(keys, Entries(TallyOf(keys))[i].0, Entries(TallyOf(keys))[j].0)
  {
    EntriesCounted(keys);
    EntriesPrecede(keys);
    var t := TallyOf(keys);
    var ks := EntryKeys(t.order);
    var e := Entries(t);
    EntryKeysMembers(t.order);
    EntriesFollowKeys(t);
    forall k | k in keys
      ensures exists i :: 0 <= i < |e| && e[i].0 == k
    {
      var i :| 0 <= i < |ks| && ks[i] == k;
      assert e[i].0 == k;
    }
  }

  /** Every entry is a key of `keys` with its number of occurrences. */
  lemma EntriesCounted(keys: seq<StatusKey>)
    ensures forall i :: 0 <= i < |Entries(TallyOf(keys))| ==>
              Entries(TallyOf(keys))[i].0 in keys
              && Entries(TallyOf(keys))[i].1 == Count(keys, Entries(TallyOf(keys))[i].0)
  {
    var t := TallyOf(keys);
    var ks := EntryKeys(t.order);
    var e := Entries(t);
    EntryKeysMembers(t.order);
    EntriesFollowKeys(t);
    forall i | 0 <= i < |e| ensures e[i].0 in keys && e[i].1 == Count(keys, e[i].0) {
      assert ks[i] in ks;
    }
  }

  /** The entries follow `Precedes` order. */
  lemma EntriesPrecede(keys: seq<StatusKey>)
    ensures forall i, j :: 0 <= i < j < |Entries(TallyOf(keys))| ==>
              && Entries(TallyOf(keys))[i].0 in keys && Entries(TallyOf(keys))[j].0 in keys
              && Precedes(keys, Entries(TallyOf(keys))[i].0, Entries(TallyOf(keys))[j].0)
  {
    var t := TallyOf(keys);
    var ks := EntryKeys(t.order);
    var e := Entries(t);
    EntryKeysOrdered(keys, t.order);
    EntriesFollowKeys(t);
    forall i, j | 0 <= i < j < |e| ensures e[i].0 in keys && e[j].0 in keys && Precedes(keys, e[i].0, e[j].0) {
      assert ks[i] in ks && ks[j] in ks;
      assert Precedes(keys, ks[i], ks[j]);
    }
  }

  /** Entry i of a tally is the i-th listed key with its count. */
  lemma EntriesFollowKeys(t: Tally)
    requires forall k :: k in t.order ==> k in t.counts
    ensures var ks := EntryKeys(t.order);
      && |Entries(t)| == |ks|
      && forall i :: 0 <= i < |ks| ==> Entries(t)[i].0 == ks[i] && ks[i] in t.counts && Entries(t)[i].1 == t.counts[ks[i]]
  {
    EntryKeysMembers(t.order);
  }

  predicate ByCountDescending(s: seq<(StatusKey, nat)>)
  {
    forall i, j :: 0 <= i < j < |s| ==> s[i].1 >= s[j].1
  }

  /** Inserts an entry ahead of the first entry whose count is not greater, so entries of
      equal count keep their relative order. */
  function InsertByCount(x: (StatusKey, nat), s: seq<(StatusKey, nat)>): (r: seq<(StatusKey, nat)>)
    requires ByCountDescending(s)
    ensures |r| == |s| + 1 && r[0] == (if |s| == 0 || s[0].1 <= x.1 then x else s[0])
    ensures ByCountDescending(r)
  {
    if |s| == 0 || s[0].1 <= x.1 then
      ConsByCount(x, s);
      [x] + s
    else
      var rest := InsertByCount(x, s[1..]);
      assert rest[0].1 <= s[0].1 by {
        if |s| > 1 { assert s[1].1 <= s[0].1; }
      }
      ConsByCount(s[0], rest);
      [s[0]] + rest
  }

  /** An entry whose count is at least the head's may go in front of a descending list. */
  lemma ConsByCount(a: (StatusKey, nat), s: seq<(StatusKey, nat)>)
    requires ByCountDescending(s)
    requires |s| > 0 ==> s[0].1 <= a.1
    ensures ByCountDescending([a] + s)
  {
    var r := [a] + s;
    forall i, j | 0 <= i < j < |r| ensures r[i].1 >= r[j].1 {
      assert r[j] == s[j - 1];
      if i > 0 {
        assert r[i] == s[i - 1];
      } else if j > 1 {
        assert s[0].1 >= s[j - 1].1;
      }
    }
  }

  /** Inserting adds exactly the one entry. */
  lemma {:induction false} InsertByCountPermutes(x: (StatusKey, nat), s: seq<(StatusKey, nat)>)
    requires ByCountDescending(s)
    ensures multiset(InsertByCount(x, s)) == multiset(s) + multiset{x}
  {
    if |s| > 0 && s[0].1 > x.1 {
      InsertByCountPermutes(x, s[1..]);
      assert s == [s[0]] + s[1..];
    }
  }

  /** `.sort(([,a], [,b]) => b - a)`: a stable sort of the entries, greatest count first. */
  function SortByCount(e: seq<(StatusKey, nat)>): (r: seq<(StatusKey, nat)>)
    ensures |r| == |e|
    ensures ByCountDescending(r)
  {
    if |e| == 0 then []
    else InsertByCount(e[0], SortByCount(e[1..]))
  }

  /** The sort neither loses nor invents an entry. */
  lemma {:induction false} SortByCountPermutes(e: seq<(StatusKey, nat)>)
    ensures multiset(SortByCount(e)) == multiset(e)
  {
    if |e| > 0 {
      var rest := SortByCount(e[1..]);
      SortByCountPermutes(e[1..]);
      InsertByCountPermutes(e[0], rest);
      assert SortByCount(e) == InsertByCount(e[0], rest);
      assert e == [e[0]] + e[1..];
      assert multiset(e) == multiset(e[1..]) + multiset{e[0]};
    }
  }

  /** The first entry of greatest count. */
  function FirstMax(e: seq<(StatusKey, nat)>): (i: nat)
    requires |e| > 0
    ensures i < |e|
    ensures forall j :: 0 <= j < |e| ==> e[j].1 <= e[i].1
    ensures forall j :: 0 <= j < i ==> e[j].1 < e[i].1
  {
    if |e| == 1 then 0
    else
      var b := FirstMax(e[1..]) + 1;
      if e[b].1 > e[0].1 then b else 0
  }

  /** A stable descending sort puts the first entry of greatest count in front. */
  lemma {:induction false} SortByCountHead(e: seq<(StatusKey, nat)>)
    requires |e| > 0
    ensures |SortByCount(e)| > 0 && SortByCount(e)[0] == e[FirstMax(e)]
  {
    if |e| > 1 {
      var rest := SortByCount(e[1..]);
      SortByCountHead(e[1..]);
      assert rest[0] == e[FirstMax(e[1..]) + 1];
    }
  }

  /** `Object.entries(errorCounts).sort(...)[0]?.[0] || '503'`. A key string is never
      empty, so the default applies exactly when no attempt was recorded. */
  function MostCommon(keys: seq<StatusKey>): (common: StatusKey)
    ensures |keys| == 0 ==> common == Code(503)
    ensures |keys| > 0 ==> common in keys
  {
    SortedHeadRecorded(keys);
    var sorted := SortByCount(Entries(TallyOf(keys)));
    if |sorted| == 0 then Code(503) else sorted[0].0
  }

  /** The sorted entries are empty exactly when nothing was recorded, and otherwise start
      with a recorded key. */
  lemma SortedHeadRecorded(keys: seq<StatusKey>)
    ensures var sorted := SortByCount(Entries(TallyOf(keys)));
      && (|keys| == 0 ==> |sorted| == 0)
      && (|keys| > 0 ==> |sorted| > 0 && sorted[0].0 in keys)
  {
    var e := Entries(TallyOf(keys));
    EntriesOfTally(keys);
    if |keys| > 0 {
      assert keys[0] in keys;
      SortByCountHead(e);
    }
  }

  /** The most common status has the greatest count among the recorded statuses, and of
      several with that count it is the one `Object.entries` lists first; '503' when
      nothing was recorded. */
  lemma MostCommonIsFirstMaximal(keys: seq<StatusKey>)
    ensures |keys| == 0 ==> MostCommon(keys) == Code(503)
    ensures |keys| > 0 ==> MostCommon(keys) in keys
    ensures |keys| > 0 ==> forall k :: k in keys ==> Count(keys, k) <= Count(keys, MostCommon(keys))
    ensures |keys| > 0 ==> forall k :: k in keys && k != MostCommon(keys) && Count(keys, k) == Count(keys, MostCommon(keys)) ==>
              Precedes(keys, MostCommon(keys), k)
  {
    var e := Entries(TallyOf(keys));
    EntriesOfTally(keys);
    if |keys| == 0 {
      assert TallyOf(keys) == Tally([], map[]);
    } else {
      assert keys[0] in keys;
      assert |e| > 0;
      SortByCountHead(e);
      var b := FirstMax(e);
      assert MostCommon(keys) == e[b].0;
      forall k | k in keys
        ensures Count(keys, k) <= Count(keys, e[b].0)
        ensures k != e[b].0 && Count(keys, k) == Count(keys, e[b].0) ==> Precedes(keys, e[b].0, k)
      {
        FirstMaxBeats(keys, k);
      }
    }
  }

  /** The first entry of greatest count has at least the count of every recorded key, and
      `Object.entries` lists it before every other key of that count. */
  lemma FirstMaxBeats(keys: seq<StatusKey>, k: StatusKey)
    requires k in keys
    ensures var e := Entries(TallyOf(keys));
      && |e| > 0
      && e[FirstMax(e)].0 in keys
      && Count(keys, k) <= Count(keys, e[FirstMax(e)].0)
      && (k != e[FirstMax(e)].0 && Count(keys, k) == Count(keys, e[FirstMax(e)].0) ==> Precedes(keys, e[FirstMax(e)].0, k))
  {
    var e := Entries(TallyOf(keys));
    EntriesOfTally(keys);
    var i :| 0 <= i < |e| && e[i].0 == k;
    var b := FirstMax(e);
    assert e[i].1 <= e[b].1;
    if k != e[b].0 && e[i].1 == e[b].1 {
      assert i != b;
      assert b < i;
    }
  }

  /** Equal counts: an array-index key beats a key recorded before it. */
  lemma TieGoesToNumericStatus()
    ensures MostCommon([NetworkError, Code(503)]) == Code(503)
  {
    var keys := [NetworkError, Code(503)];
    MostCommonIsFirstMaximal(keys);
    assert Count(keys, NetworkError) == 1 && Count(keys, Code(503)) == 1;
  }

  /** Equal counts between two statuses: the numerically smaller wins, not the first recorded. */
  lemma TieGoesToSmallerStatus()
    ensures MostCommon([Code(503), Code(429)]) == Code(429)
  {
    var keys := [Code(503), Code(429)];
    MostCommonIsFirstMaximal(keys);
    assert Count(keys, Code(429)) == 1 && Count(keys, Code(503)) == 1;
  }

  /** Two 503s outweigh one 429. */
  lemma MajorityWins()
    ensures MostCommon([Code(503), Code(503), Code(429)]) == Code(503)
  {
    var keys := [Code(503), Code(503), Code(429)];
    MostCommonIsFirstMaximal(keys);
    CountsOfMajority();
    var m := MostCommon(keys);
    assert m == Code(503) || m == Code(429);
    assert Count(keys, Code(503)) <= Count(keys, m);
  }

  lemma CountsOfMajority()
    ensures Count([Code(503), Code(503), Code(429)], Code(503)) == 2
    ensures Count([Code(503), Code(503), Code(429)], Code(429)) == 1
  {
    assert multiset([Code(503), Code(503), Code(429)]) == multiset{Code(503), Code(503), Code(429)};
  }
}
