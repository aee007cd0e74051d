/** The status overview: status rows are folded into one group per
    `kunde_id::kundenrolle` key, in the order keys are first seen; each group
    gets a completion percentage and a lifecycle label. */
module Overview {
  import opened Base
  import opened StatusRows
  import opened Progress

  /** One overview card before its percentage and label are attached. */
  datatype Group = Group(
    kundeId: string,
    kundeName: Option<string>,
    kundenrolle: Option<string>,
    letztesUpdate: Option<string>,
    counters: Counters,
    anyUpload: bool)

  function GroupKey(g: Group): string {
    KeyOf(g.kundeId, g.kundenrolle)
  }

  /** `r.letztes_update || r.erkannt_am || null` */
  function FirstTimestamp(r: Row): Option<string> {
    if TruthyText(r.letztesUpdate) then r.letztesUpdate
    else if TruthyText(r.erkanntAm) then r.erkanntAm
    else None
  }

  /** The group a key's first row creates: its identity, zero counters. */
  function Fresh(r: Row): Group {
    Group(r.kundeId, r.kundeName, r.kundenrolle, FirstTimestamp(r), Zero, false)
  }

  function Bit(b: bool): nat {
    if b then 1 else 0
  }

  /** What one row adds to its group. */
  function Step(g: Group, r: Row): Group {
    var c := g.counters;
    g.(counters := Counters(
         c.reqTotal + Bit(IsRequired(r)), c.reqOk + Bit(IsRequiredPresent(r)),
         c.minTotal + Bit(HasMinimum(r)), c.minOk + Bit(HasMinimumSatisfied(r)),
         c.deepTotal + Bit(IsDeep(r)), c.deepOk + Bit(DeepPassed(r)), c.deepFailed + Bit(DeepFailed(r))),
       anyUpload := g.anyUpload || HasUpload(r))
  }

  /** Folds `Step` over `rows` from the left. */
  function Fold(g: Group, rows: seq<Row>): Group
    decreases |rows|
  {
    if rows == [] then g else Step(Fold(g, rows[..|rows| - 1]), rows[|rows| - 1])
  }

  /** The index of the group holding key `k`, if any. */
  function Find(gs: seq<Group>, k: string, from: nat := 0): (r: Option<nat>)
    requires from <= |gs|
    ensures r.Some? ==> from <= r.value < |gs| && GroupKey(gs[r.value]) == k
    ensures r.None? ==> forall j :: from <= j < |gs| ==> GroupKey(gs[j]) != k
    decreases |gs| - from
  {
    if from == |gs| then None
    else if GroupKey(gs[from]) == k then Some(from)
    else Find(gs, k, from + 1)
  }

  /** One step of the `reduce`: update the row's group, or open a new one at the end. */
  function AddRow(gs: seq<Group>, r: Row): seq<Group> {
    match Find(gs, Key(r))
    case Some(i) => gs[i := Step(gs[i], r)]
    case None => gs + [Step(Fresh(r), r)]
  }

  /** The grouping `reduce` over all rows, groups in first-seen order. */
  function Aggregate(rows: seq<Row>): seq<Group>
    decreases |rows|
  {
    if rows == [] then [] else AddRow(Aggregate(rows[..|rows| - 1]), rows[|rows| - 1])
  }

  // ---------------------------------------------------------------------
  // Reference definitions: which rows a key owns, and the keys in order.

  /** The rows whose key is `k`, in their original order. */
  function Select(rows: seq<Row>, k: string): (s: seq<Row>)
    ensures |s| <= |rows|
    decreases |rows|
  {
    if rows == [] then []
    else
      var last := rows[|rows| - 1];
      Select(rows[..|rows| - 1], k) + (if Key(last) == k then [last] else [])
  }

  /** The distinct keys of `rows`, each at the position where it first occurs. */
  function FirstSeenKeys(rows: seq<Row>): (ks: seq<string>)
    decreases |rows|
  {
    if rows == [] then []
    else
      var ks := FirstSeenKeys(rows[..|rows| - 1]);
      var k := Key(rows[|rows| - 1]);
      if k in ks then ks else ks + [k]
  }

  lemma {:induction false} SelectMembers(rows: seq<Row>, k: string)
    ensures forall x :: x in Select(rows, k) <==> x in rows && Key(x) == k
    decreases |rows|
  {
    if rows != [] {
      var init := rows[..|rows| - 1];
      assert rows == init + [rows[|rows| - 1]];
      SelectMembers(init, k);
    }
  }

  /** A key has rows exactly when it is among the first-seen keys. */
  lemma {:induction false} FirstSeenKeysOwnRows(rows: seq<Row>, k: string)
    ensures Select(rows, k) != [] <==> k in FirstSeenKeys(rows)
    decreases |rows|
  {
    if rows != [] {
      FirstSeenKeysOwnRows(rows[..|rows| - 1], k);
    }
  }

  lemma {:induction false} FirstSeenKeysDistinct(rows: seq<Row>)
    ensures forall i, j :: 0 <= i < j < |FirstSeenKeys(rows)| ==> FirstSeenKeys(rows)[i] != FirstSeenKeys(rows)[j]
    decreases |rows|
  {
    if rows != [] {
      FirstSeenKeysDistinct(rows[..|rows| - 1]);
    }
  }

  /** The group a key ought to produce: its first row's identity, with every row of the key folded in. */
  function GroupOf(rows: seq<Row>, k: string): Group
    requires Select(rows, k) != []
  {
    var sel := Select(rows, k);
    Fold(Fresh(sel[0]), sel)
  }

  lemma FoldKeepsKey(g: Group, rows: seq<Row>)
    ensures Fold(g, rows).kundeId == g.kundeId && Fold(g, rows).kundeName == g.kundeName
    ensures Fold(g, rows).kundenrolle == g.kundenrolle && Fold(g, rows).letztesUpdate == g.letztesUpdate
    decreases |rows|
  {
    if rows != [] {
      FoldKeepsKey(g, rows[..|rows| - 1]);
    }
  }

  /** Appending a row extends its own key's selection... */
  lemma SelectOwn(init: seq<Row>, r: Row)
    ensures Select(init + [r], Key(r)) == Select(init, Key(r)) + [r]
  {
    assert (init + [r])[..|init|] == init;
  }

  /** ...and leaves every other key's selection, and so its group, as it was. */
  lemma SelectOther(init: seq<Row>, r: Row, k: string)
    requires Key(r) != k
    ensures Select(init + [r], k) == Select(init, k)
    ensures Select(init, k) != [] ==> GroupOf(init + [r], k) == GroupOf(init, k)
  {
    assert (init + [r])[..|init|] == init;
    assert Select(init, k) + [] == Select(init, k);
  }

  lemma FoldSnoc(g: Group, rows: seq<Row>, r: Row)
    ensures Fold(g, rows + [r]) == Step(Fold(g, rows), r)
  {
    assert (rows + [r])[..|rows|] == rows;
  }

  /** The groups `gs` are exactly the groups `rows` ought to produce, in first-seen order. */
  ghost predicate Partitioned(rows: seq<Row>, gs: seq<Group>) {
    var ks := FirstSeenKeys(rows);
    && |gs| == |ks|
    && (forall i :: 0 <= i < |gs| ==> GroupKey(gs[i]) == ks[i])
    && (forall i :: 0 <= i < |gs| ==> Select(rows, ks[i]) != [] && gs[i] == GroupOf(rows, ks[i]))
  }

  /** A row whose key already has a group is folded into that group. */
  lemma AddToExisting(init: seq<Row>, r: Row, gs: seq<Group>, i: nat)
    requires Partitioned(init, gs)
    requires i < |gs| && GroupKey(gs[i]) == Key(r)
    ensures Partitioned(init + [r], gs[i := Step(gs[i], r)])
  {
    var rows := init + [r];
    assert rows[..|rows| - 1] == init;
    var ks := FirstSeenKeys(init);
    assert ks[i] == Key(r);
    assert FirstSeenKeys(rows) == ks;
    FirstSeenKeysDistinct(init);
    var gs' := gs[i := Step(gs[i], r)];
    var sel := Select(init, Key(r));
    SelectOwn(init, r);
    assert (sel + [r])[0] == sel[0];
    FoldSnoc(Fresh(sel[0]), sel, r);
    assert gs'[i] == GroupOf(rows, ks[i]);
    forall j | 0 <= j < |gs'| && j != i
      ensures Select(rows, ks[j]) != [] && gs'[j] == GroupOf(rows, ks[j])
    {
      assert ks[j] != ks[i];
      SelectOther(init, r, ks[j]);
    }
  }

  /** A row with an unseen key opens a new group at the end. */
  lemma AddFresh(init: seq<Row>, r: Row, gs: seq<Group>)
    requires Partitioned(init, gs)
    requires forall j :: 0 <= j < |gs| ==> GroupKey(gs[j]) != Key(r)
    ensures Partitioned(init + [r], gs + [Step(Fresh(r), r)])
  {
    var rows := init + [r];
    assert rows[..|rows| - 1] == init;
    var ks := FirstSeenKeys(init);
    assert Key(r) !in ks;
    var ks' := FirstSeenKeys(rows);
    assert ks' == ks + [Key(r)];
    FirstSeenKeysOwnRows(init, Key(r));
    SelectOwn(init, r);
    assert Select(rows, Key(r)) == [r];
    FoldSnoc(Fresh(r), [], r);
    var gs' := gs + [Step(Fresh(r), r)];
    assert gs'[|gs|] == GroupOf(rows, ks'[|gs|]);
    forall j | 0 <= j < |gs|
      ensures Select(rows, ks'[j]) != [] && gs'[j] == GroupOf(rows, ks'[j])
    {
      assert ks'[j] == ks[j] != Key(r);
      SelectOther(init, r, ks[j]);
    }
  }

  /** The overview's grouping is a partition: the i-th group carries the
      i-th first-seen key and is exactly the fold of that key's rows. */
  lemma {:induction false} AggregateIsPartition(rows: seq<Row>)
    ensures Partitioned(rows, Aggregate(rows))
    decreases |rows|
  {
    if rows != [] {
      var init := rows[..|rows| - 1];
      var r := rows[|rows| - 1];
      assert rows == init + [r];
      AggregateIsPartition(init);
      var gs := Aggregate(init);
      match Find(gs, Key(r))
      case Some(i) => AddToExisting(init, r, gs, i);
      case None => AddFresh(init, r, gs);
    }
  }

  // ---------------------------------------------------------------------
  // What a group says about its rows.

  /** How many rows of `s` satisfy `p`. */
  function CountIn(s: seq<Row>, p: Row -> bool): nat
    decreases |s|
  {
    if s == [] then 0 else CountIn(s[..|s| - 1], p) + Bit(p(s[|s| - 1]))
  }

  lemma {:induction false} CountPositive(s: seq<Row>, p: Row -> bool)
    ensures CountIn(s, p) > 0 <==> exists x :: x in s && p(x)
    decreases |s|
  {
    if s != [] {
      var init := s[..|s| - 1];
      assert s == init + [s[|s| - 1]];
      CountPositive(init, p);
    }
  }

  /** Folding rows into a group adds, counter by counter, the number of rows that count for it. */
  lemma {:induction false} FoldCounters(g: Group, s: seq<Row>)
    ensures Fold(g, s).counters == Counters(
              g.counters.reqTotal + CountIn(s, IsRequired),
              g.counters.reqOk + CountIn(s, IsRequiredPresent),
              g.counters.minTotal + CountIn(s, HasMinimum),
              g.counters.minOk + CountIn(s, HasMinimumSatisfied),
              g.counters.deepTotal + CountIn(s, IsDeep),
              g.counters.deepOk + CountIn(s, DeepPassed),
              g.counters.deepFailed + CountIn(s, DeepFailed))
    decreases |s|
  {
    if s != [] {
      FoldCounters(g, s[..|s| - 1]);
    }
  }

  lemma {:induction false} FoldAnyUpload(g: Group, s: seq<Row>)
    ensures Fold(g, s).anyUpload <==> g.anyUpload || exists x :: x in s && HasUpload(x)
    decreases |s|
  {
    if s != [] {
      var init := s[..|s| - 1];
      assert s == init + [s[|s| - 1]];
      FoldAnyUpload(g, init);
    }
  }

  /** Folding rows into a group adds each row's contribution to every counter
      and to the upload flag. */
  lemma FoldCounts(g: Group, s: seq<Row>)
    ensures Fold(g, s).counters == Counters(
              g.counters.reqTotal + CountIn(s, IsRequired),
              g.counters.reqOk + CountIn(s, IsRequiredPresent),
              g.counters.minTotal + CountIn(s, HasMinimum),
              g.counters.minOk + CountIn(s, HasMinimumSatisfied),
              g.counters.deepTotal + CountIn(s, IsDeep),
              g.counters.deepOk + CountIn(s, DeepPassed),
              g.counters.deepFailed + CountIn(s, DeepFailed))
    ensures Fold(g, s).anyUpload <==> g.anyUpload || exists x :: x in s && HasUpload(x)
  {
    FoldCounters(g, s);
    FoldAnyUpload(g, s);
  }

  /** The counters of the group with key `k` count exactly the rows with key `k`:
      `reqTotal` the required ones, `reqOk` those also present, `minTotal` those
      with a minimum count, `minOk` those also flagged satisfied (either
      spelling), `deepTotal` the deep-verification ones, `deepOk`/`deepFailed`
      those whose case status reads "passed"/"failed" in any letter case. */
  lemma GroupCounters(rows: seq<Row>, i: nat)
    requires i < |Aggregate(rows)|
    ensures var sel := Select(rows, GroupKey(Aggregate(rows)[i]));
            Aggregate(rows)[i].counters == Counters(
              CountIn(sel, IsRequired), CountIn(sel, IsRequiredPresent),
              CountIn(sel, HasMinimum), CountIn(sel, HasMinimumSatisfied),
              CountIn(sel, IsDeep), CountIn(sel, DeepPassed), CountIn(sel, DeepFailed))
  {
    AggregateIsPartition(rows);
    var k := FirstSeenKeys(rows)[i];
    FoldCounts(Fresh(Select(rows, k)[0]), Select(rows, k));
  }

  /** A group has an upload exactly when one of its rows has a truthy `file_url`. */
  lemma AnyUploadIff(rows: seq<Row>, i: nat)
    requires i < |Aggregate(rows)|
    ensures Aggregate(rows)[i].anyUpload
            <==> exists x :: x in rows && Key(x) == GroupKey(Aggregate(rows)[i]) && HasUpload(x)
  {
    AggregateIsPartition(rows);
    var k := FirstSeenKeys(rows)[i];
    FoldCounts(Fresh(Select(rows, k)[0]), Select(rows, k));
    SelectMembers(rows, k);
  }

  /** `j` is the position of the first row with key `k`. */
  ghost predicate IsFirstWithKey(rows: seq<Row>, j: int, k: string) {
    0 <= j < |rows| && Key(rows[j]) == k && forall b :: 0 <= b < j ==> Key(rows[b]) != k
  }

  lemma {:induction false} SelectHead(rows: seq<Row>, k: string)
    requires Select(rows, k) != []
    ensures exists j :: IsFirstWithKey(rows, j, k) && rows[j] == Select(rows, k)[0]
    decreases |rows|
  {
    var init := rows[..|rows| - 1];
    var r := rows[|rows| - 1];
    if Select(init, k) != [] {
      SelectHead(init, k);
      var j :| IsFirstWithKey(init, j, k) && init[j] == Select(init, k)[0];
      assert IsFirstWithKey(rows, j, k);
    } else {
      SelectMembers(init, k);
      assert forall b :: 0 <= b < |init| ==> init[b] in init;
      assert IsFirstWithKey(rows, |init|, k);
    }
  }

  /** Same customer identity and first timestamp. */
  predicate SameIdentity(g: Group, r: Row) {
    && g.kundeId == r.kundeId && g.kundeName == r.kundeName
    && g.kundenrolle == r.kundenrolle && g.letztesUpdate == FirstTimestamp(r)
  }

  /** A group's `kunde_id`, `kunde_name`, `kundenrolle` and `letztes_update`
      come from the first row with its key; later rows never change them. */
  lemma GroupIdentity(rows: seq<Row>, i: nat)
    requires i < |Aggregate(rows)|
    ensures exists j :: IsFirstWithKey(rows, j, GroupKey(Aggregate(rows)[i]))
                        && SameIdentity(Aggregate(rows)[i], rows[j])
  {
    AggregateIsPartition(rows);
    var k := FirstSeenKeys(rows)[i];
    var sel := Select(rows, k);
    FoldKeepsKey(Fresh(sel[0]), sel);
    SelectHead(rows, k);
  }

  /** Every row lands in exactly one group: some group has its key, and no two groups share a key. */
  lemma RowInExactlyOneGroup(rows: seq<Row>, j: nat)
    requires j < |rows|
    ensures exists i :: 0 <= i < |Aggregate(rows)| && GroupKey(Aggregate(rows)[i]) == Key(rows[j])
    ensures forall i, i' :: 0 <= i < i' < |Aggregate(rows)| ==>
              GroupKey(Aggregate(rows)[i]) != GroupKey(Aggregate(rows)[i'])
  {
    AggregateIsPartition(rows);
    FirstSeenKeysDistinct(rows);
    SelectMembers(rows, Key(rows[j]));
    assert rows[j] in Select(rows, Key(rows[j]));
    FirstSeenKeysOwnRows(rows, Key(rows[j]));
    var ks := FirstSeenKeys(rows);
    var i :| 0 <= i < |ks| && ks[i] == Key(rows[j]);
    assert GroupKey(Aggregate(rows)[i]) == Key(rows[j]);
  }

  lemma FirstOfOldKey(init: seq<Row>, r: Row, a: int, k: string)
    requires Select(init, k) != []
    requires IsFirstWithKey(init + [r], a, k)
    ensures a < |init| && IsFirstWithKey(init, a, k)
  {
    SelectMembers(init, k);
    var x := Select(init, k)[0];
    assert x in init;
    var c :| 0 <= c < |init| && init[c] == x;
    assert (init + [r])[c] == x;
    forall b | 0 <= b < a
      ensures Key(init[b]) != k
    {
      assert (init + [r])[b] == init[b];
    }
  }

  lemma {:induction false} FirstSeenKeysOrder(rows: seq<Row>)
    ensures forall i, i', a, b ::
              (0 <= i < i' < |FirstSeenKeys(rows)|
               && IsFirstWithKey(rows, a, FirstSeenKeys(rows)[i])
               && IsFirstWithKey(rows, b, FirstSeenKeys(rows)[i'])) ==> a < b
    decreases |rows|
  {
    if rows != [] {
      var init := rows[..|rows| - 1];
      var r := rows[|rows| - 1];
      assert rows == init + [r];
      FirstSeenKeysOrder(init);
      var ks := FirstSeenKeys(init);
      var ks' := FirstSeenKeys(rows);
      forall i, i', a, b | 0 <= i < i' < |ks'| && IsFirstWithKey(rows, a, ks'[i])
                           && IsFirstWithKey(rows, b, ks'[i'])
        ensures a < b
      {
        FirstSeenKeysOwnRows(init, ks'[i]);
        FirstOfOldKey(init, r, a, ks'[i]);
        if i' < |ks| {
          FirstSeenKeysOwnRows(init, ks'[i']);
          FirstOfOldKey(init, r, b, ks'[i']);
        } else {
          assert ks'[i'] == Key(r) && Key(r) !in ks;
          FirstSeenKeysOwnRows(init, Key(r));
          SelectMembers(init, Key(r));
        }
      }
    }
  }

  /** Groups appear in the order their keys first occur among the rows. */
  lemma FirstSeenOrder(rows: seq<Row>, i: nat, i': nat, a: nat, b: nat)
    requires i < i' < |Aggregate(rows)|
    requires IsFirstWithKey(rows, a, GroupKey(Aggregate(rows)[i]))
    requires IsFirstWithKey(rows, b, GroupKey(Aggregate(rows)[i']))
    ensures a < b
  {
    AggregateIsPartition(rows);
    FirstSeenKeysOrder(rows);
  }

  lemma StepWellFormed(g: Group, r: Row)
    requires WellFormed(g.counters)
    ensures WellFormed(Step(g, r).counters)
  {
  }

  /** Per group: `reqOk <= reqTotal`, `minOk <= minTotal`, `deepOk + deepFailed <= deepTotal`. */
  lemma {:induction false} AggregateWellFormed(rows: seq<Row>)
    ensures forall i :: 0 <= i < |Aggregate(rows)| ==> WellFormed(Aggregate(rows)[i].counters)
    decreases |rows|
  {
    if rows != [] {
      var init := rows[..|rows| - 1];
      var r := rows[|rows| - 1];
      AggregateWellFormed(init);
      var gs := Aggregate(init);
      match Find(gs, Key(r))
      case Some(i) => StepWellFormed(gs[i], r);
      case None => StepWellFormed(Fresh(r), r);
    }
  }

  /** The sum of `reqTotal` over a list of groups. */
  function SumReqTotal(gs: seq<Group>): nat
    decreases |gs|
  {
    if gs == [] then 0 else gs[0].counters.reqTotal + SumReqTotal(gs[1..])
  }

  lemma {:induction false} SumReqTotalUpdate(gs: seq<Group>, i: nat, g: Group)
    requires i < |gs|
    ensures SumReqTotal(gs[i := g]) + gs[i].counters.reqTotal == SumReqTotal(gs) + g.counters.reqTotal
    decreases |gs|
  {
    if i > 0 {
      SumReqTotalUpdate(gs[1..], i - 1, g);
      assert gs[i := g][1..] == gs[1..][i - 1 := g];
    }
  }

  lemma {:induction false} SumReqTotalAppend(gs: seq<Group>, g: Group)
    ensures SumReqTotal(gs + [g]) == SumReqTotal(gs) + g.counters.reqTotal
    decreases |gs|
  {
    if gs != [] {
      SumReqTotalAppend(gs[1..], g);
      assert (gs + [g])[1..] == gs[1..] + [g];
    }
  }

  /** Summed over all groups, `reqTotal` is the number of required rows. */
  lemma {:induction false} RequiredTotalsAddUp(rows: seq<Row>)
    ensures SumReqTotal(Aggregate(rows)) == CountIn(rows, IsRequired)
    decreases |rows|
  {
    if rows != [] {
      var init := rows[..|rows| - 1];
      var r := rows[|rows| - 1];
      RequiredTotalsAddUp(init);
      var gs := Aggregate(init);
      match Find(gs, Key(r))
      case Some(i) => SumReqTotalUpdate(gs, i, Step(gs[i], r));
      case None => SumReqTotalAppend(gs, Step(Fresh(r), r));
    }
  }

  /** Rows that differ only in an absent versus empty `kundenrolle` share a
      group; and when customer ids carry no ':', two rows share a group
      exactly when customer id and role (absent read as empty) agree. */
  lemma SameGroupIff(r1: Row, r2: Row)
    ensures r1.kundeId == r2.kundeId && OrEmpty(r1.kundenrolle) == OrEmpty(r2.kundenrolle)
            ==> Key(r1) == Key(r2)
    ensures ':' !in r1.kundeId && ':' !in r2.kundeId && Key(r1) == Key(r2)
            ==> r1.kundeId == r2.kundeId && OrEmpty(r1.kundenrolle) == OrEmpty(r2.kundenrolle)
  {
    if ':' !in r1.kundeId && ':' !in r2.kundeId && Key(r1) == Key(r2) {
      KeyInjective(r1.kundeId, r1.kundenrolle, r2.kundeId, r2.kundenrolle);
    }
  }

  /** A shorter id puts its separator where the longer id has a character of its own. */
  lemma ShorterIdClash(id1: string, role1: Option<string>, id2: string, role2: Option<string>)
    requires |id1| < |id2|
    ensures KeyOf(id1, role1)[|id1|] == ':'
    ensures KeyOf(id2, role2)[|id1|] == id2[|id1|] && id2[|id1|] in id2
  {
  }

  /** The key determines customer id and role when the id has no ':'. */
  lemma KeyInjective(id1: string, role1: Option<string>, id2: string, role2: Option<string>)
    requires ':' !in id1 && ':' !in id2
    requires KeyOf(id1, role1) == KeyOf(id2, role2)
    ensures id1 == id2 && OrEmpty(role1) == OrEmpty(role2)
  {
    var k1, k2 := KeyOf(id1, role1), KeyOf(id2, role2);
    if |id1| < |id2| {
      ShorterIdClash(id1, role1, id2, role2);
      assert false;
    } else if |id2| < |id1| {
      ShorterIdClash(id2, role2, id1, role1);
      assert false;
    } else {
      assert id1 == k1[..|id1|] == k2[..|id2|] == id2;
      assert OrEmpty(role1) == k1[|id1| + 2..] == k2[|id2| + 2..] == OrEmpty(role2);
    }
  }

  /** Without that assumption the key is ambiguous: even an id free of "::"
      collides with another customer's group. */
  lemma KeyCollision()
    ensures KeyOf("a:", Some("x")) == KeyOf("a", Some(":x"))
  {
  }

  // ---------------------------------------------------------------------
  // Percentages and lifecycle labels.

  datatype Lifecycle = WaitingForUpload | InProgress | Completed | Failed {
    /** The label shown on the card. */
    function Label(): string {
      match this
      case WaitingForUpload => "Wartet auf Upload"
      case InProgress => "In Bearbeitung"
      case Completed => "Abgeschlossen"
      case Failed => "Fehlgeschlagen"
    }
  }

  /** `deriveStatus`: a failed case beats everything, even 100%; then 100%
      means completed; then any upload means in progress; else waiting. */
  function DeriveStatus(c: Counters, anyUpload: bool, p: int): (s: Lifecycle)
    ensures s == Failed <==> c.deepFailed > 0
    ensures s == Completed <==> c.deepFailed == 0 && p == 100
    ensures s == InProgress <==> c.deepFailed == 0 && p != 100 && anyUpload
    ensures s == WaitingForUpload <==> c.deepFailed == 0 && p != 100 && !anyUpload
  {
    if c.deepFailed > 0 then Failed
    else if p == 100 then Completed
    else if anyUpload then InProgress
    else WaitingForUpload
  }

  /** One overview card: the group with its percentage and label. */
  datatype Summary = Summary(group: Group, progress: int, status: Lifecycle)

  function Summarize(g: Group): Summary {
    var p := Compute(g.counters);
    Summary(g, p, DeriveStatus(g.counters, g.anyUpload, p))
  }

  /** The cards of the overview, one per group, in group order. */
  function Summaries(rows: seq<Row>): (ss: seq<Summary>)
    ensures |ss| == |Aggregate(rows)|
    ensures forall i :: 0 <= i < |ss| ==> ss[i].group == Aggregate(rows)[i]
    ensures forall i :: 0 <= i < |ss| ==> 0 <= ss[i].progress <= 100
  {
    AggregateWellFormed(rows);
    var gs := Aggregate(rows);
    seq(|gs|, i requires 0 <= i < |gs| => Summarize(gs[i]))
  }

  /** A card reads "Fehlgeschlagen" exactly when one of its rows is a deep
      verification whose case status reads "failed". */
  lemma FailedIff(rows: seq<Row>, i: nat)
    requires i < |Summaries(rows)|
    ensures Summaries(rows)[i].status == Failed
            <==> exists x :: x in rows && Key(x) == GroupKey(Aggregate(rows)[i]) && DeepFailed(x)
  {
    var k := GroupKey(Aggregate(rows)[i]);
    GroupCounters(rows, i);
    CountPositive(Select(rows, k), DeepFailed);
    SelectMembers(rows, k);
  }

  /** A card waiting for upload has no row with a file. */
  lemma WaitingHasNoUpload(rows: seq<Row>, i: nat)
    requires i < |Summaries(rows)|
    requires Summaries(rows)[i].status == WaitingForUpload
    ensures forall x :: x in rows && Key(x) == GroupKey(Aggregate(rows)[i]) ==> !HasUpload(x)
  {
    AnyUploadIff(rows, i);
  }
}
