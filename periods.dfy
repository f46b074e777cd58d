/**
 * The reporting periods of the master data: each entry turned into
 * `{ id, period }` or dropped, the list sorted by id with the largest
 * first, and the first one taken as the current period.
 */
module Periods {

  import opened Wrappers
  import opened JsValues
  import opened Seqs

  /** An entry of the master data's `periods`: a string, an object, or anything else. */
  datatype RawPeriod = PeriodText(text: string) | PeriodObject(id: Value, period: Value) | OtherEntry

  /** A processed period `{ id: parseInt(...), period }`. */
  datatype Period = Period(id: int, period: Value)

  /**
   * One entry of `periods.map(...)`: a string is its own label, an object
   * needs a truthy `id` and `period`; anything else is dropped. An entry
   * whose id does not parse is dropped too (its NaN id is not modelled).
   */
  function ProcessPeriod(raw: RawPeriod): (r: Option<Period>)
    ensures raw.OtherEntry? ==> r.None?
    ensures r.Some? ==> Truthy(r.value.period)
    ensures raw.PeriodText? && r.Some? ==> r.value.period == Str(raw.text)
    ensures raw.PeriodObject? && r.Some? ==> Truthy(raw.id) && r.value.period == raw.period
  {
    match raw
    case PeriodText(text) =>
      (match ParseInt(text)
       case Some(n) => Some(Period(n, Str(text)))
       case None => None)
    case PeriodObject(id, period) =>
      if Truthy(id) && Truthy(period) then
        (match ParseInt(ToText(id))
         case Some(n) => Some(Period(n, period))
         case None => None)
      else None
    case OtherEntry => None
  }

  /** `periods.map(...).filter(item => item !== null)` */
  function ProcessPeriods(raws: seq<RawPeriod>): (ps: seq<Period>)
    ensures |ps| <= |raws|
  {
    FilterMap(raws, ProcessPeriod)
  }

  /** Processing keeps the order of the entries: it works entry by entry. */
  lemma ProcessPeriodsAppend(a: seq<RawPeriod>, b: seq<RawPeriod>)
    ensures ProcessPeriods(a + b) == ProcessPeriods(a) + ProcessPeriods(b)
  {
    FilterMapAppend(a, b, ProcessPeriod);
  }

  /** A period is kept exactly when some entry processes to it. */
  lemma ProcessPeriodsMembers(raws: seq<RawPeriod>, p: Period)
    ensures p in ProcessPeriods(raws) <==> exists i :: 0 <= i < |raws| && ProcessPeriod(raws[i]) == Some(p)
  {
    FilterMapMembers(raws, ProcessPeriod, p);
  }

  /** An object entry with a non-zero numeric id and a truthy label keeps both. */
  lemma ProcessObjectPeriod(n: int, period: Value)
    requires n != 0 && Truthy(period)
    ensures ProcessPeriod(PeriodObject(Num(n), period)) == Some(Period(n, period))
  {
    assert ToText(Num(n)) == IntToText(n);
    ParseIntOfIntToText(n);
  }

  /** A string entry made of digits gets their value as id and itself as label. */
  lemma ProcessTextPeriod(digits: string)
    requires digits != [] && AllDigits(digits)
    ensures ProcessPeriod(PeriodText(digits)) == Some(Period(DigitsValue(digits), Str(digits)))
  {
    ParseIntOfDigits(digits);
  }

  /** A string entry "0x…" of hexadecimal digits gets their value as id, as `parseInt` reads it, and itself as label. */
  lemma ProcessHexTextPeriod(text: string)
    requires HasHexPrefix(text) && text[2..] != [] && AllHexDigits(text[2..])
    ensures ProcessPeriod(PeriodText(text)) == Some(Period(HexValue(text[2..]), Str(text)))
  {
    ParseIntOfHex(text);
  }

  /** Ids never increase along the list. */
  predicate SortedDesc(ps: seq<Period>)
  {
    forall i, j :: 0 <= i < j < |ps| ==> ps[i].id >= ps[j].id
  }

  /** Put `p` before the first period whose id is not larger. */
  function Insert(p: Period, sorted: seq<Period>): (r: seq<Period>)
    ensures |r| == |sorted| + 1
    ensures multiset(r) == multiset(sorted) + multiset{p}
    decreases |sorted|
  {
    if sorted == [] || p.id >= sorted[0].id then [p] + sorted
    else
      var rest := Insert(p, sorted[1..]);
      assert sorted == [sorted[0]] + sorted[1..];
      [sorted[0]] + rest
  }

  /** `[...periods].sort((a, b) => b.id - a.id)`, a stable sort. */
  function SortByIdDesc(ps: seq<Period>): (r: seq<Period>)
    ensures multiset(r) == multiset(ps)
    decreases |ps|
  {
    if ps == [] then []
    else
      var rest := SortByIdDesc(ps[1..]);
      assert ps == [ps[0]] + ps[1..];
      Insert(ps[0], rest)
  }

  lemma {:induction false} InsertSorted(p: Period, sorted: seq<Period>)
    requires SortedDesc(sorted)
    ensures SortedDesc(Insert(p, sorted))
    decreases |sorted|
  {
    if sorted != [] && p.id < sorted[0].id {
      InsertSorted(p, sorted[1..]);
      var rest := Insert(p, sorted[1..]);
      forall x: Period | x in multiset(rest)
        ensures x.id <= sorted[0].id
      {
        assert x in multiset(sorted[1..]) + multiset{p};
        if x != p {
          assert x in sorted[1..];
        }
      }
      forall j | 0 <= j < |rest|
        ensures sorted[0].id >= rest[j].id
      {
        assert rest[j] in multiset(rest);
      }
    }
  }

  /** Having the id `k`. */
  function HasId(k: int): Period -> bool
  {
    (q: Period) => q.id == k
  }

  lemma {:induction false} InsertStable(p: Period, sorted: seq<Period>, k: int)
    requires SortedDesc(sorted)
    ensures Filter(Insert(p, sorted), HasId(k)) == Filter([p], HasId(k)) + Filter(sorted, HasId(k))
    decreases |sorted|
  {
    if sorted == [] || p.id >= sorted[0].id {
      FilterAppend([p], sorted, HasId(k));
    } else {
      InsertStable(p, sorted[1..], k);
      FilterAppend([sorted[0]], Insert(p, sorted[1..]), HasId(k));
      FilterAppend([sorted[0]], sorted[1..], HasId(k));
      assert [sorted[0]] + sorted[1..] == sorted;
      if p.id == k {
        // every period before p's place has a larger id, so none of them has id k
        assert sorted[0].id > k;
      }
    }
  }

  /**
   * The sort orders by id, largest first, keeps every period, and keeps
   * periods with the same id in their original order.
   */
  lemma {:induction false} SortByIdDescSpec(ps: seq<Period>, k: int)
    ensures SortedDesc(SortByIdDesc(ps))
    ensures multiset(SortByIdDesc(ps)) == multiset(ps)
    ensures Filter(SortByIdDesc(ps), HasId(k)) == Filter(ps, HasId(k))
    decreases |ps|
  {
    if ps != [] {
      SortByIdDescSpec(ps[1..], k);
      InsertSorted(ps[0], SortByIdDesc(ps[1..]));
      InsertStable(ps[0], SortByIdDesc(ps[1..]), k);
      FilterAppend([ps[0]], ps[1..], HasId(k));
      assert [ps[0]] + ps[1..] == ps;
    }
  }

  /** The master data's periods as the page keeps them: processed, most recent first. */
  function LatestFirst(raws: seq<RawPeriod>): (sorted: seq<Period>)
    ensures SortedDesc(sorted)
  {
    var ps := ProcessPeriods(raws);
    SortByIdDescSpec(ps, 0);
    SortByIdDesc(ps)
  }

  /** The current period: the id of the first sorted period, as text; none when no period survives. */
  function CurrentPeriod(sorted: seq<Period>): (current: Option<string>)
    ensures current.Some? <==> sorted != []
    ensures current.Some? ==> current.value != ""
  {
    if sorted == [] then None else Some(IntToText(sorted[0].id))
  }

  /** The head of a list sorted largest first has the largest id of any list with the same elements. */
  lemma SortedHeadIsLargest(sorted: seq<Period>, ps: seq<Period>)
    requires SortedDesc(sorted) && multiset(sorted) == multiset(ps) && |ps| > 0
    ensures |sorted| > 0 && sorted[0] in ps
    ensures forall q :: q in ps ==> q.id <= sorted[0].id
  {
    assert |sorted| > 0 by {
      assert ps[0] in multiset(sorted);
    }
    assert sorted[0] in multiset(ps);
    forall q | q in ps
      ensures q.id <= sorted[0].id
    {
      assert q in multiset(sorted);
      var j :| 0 <= j < |sorted| && sorted[j] == q;
    }
  }

  /**
   * The current period is the largest id among the processed periods, and
   * there is one exactly when some entry survived processing.
   */
  lemma CurrentPeriodIsLargest(raws: seq<RawPeriod>)
    ensures var ps := ProcessPeriods(raws);
      var sorted := SortByIdDesc(ps);
      && (CurrentPeriod(sorted).Some? <==> |ps| > 0)
      && (|ps| > 0 ==> exists p :: p in ps && CurrentPeriod(sorted) == Some(IntToText(p.id)) &&
                                   forall q :: q in ps ==> q.id <= p.id)
  {
    var ps := ProcessPeriods(raws);
    SortByIdDescSpec(ps, 0);
    var sorted := SortByIdDesc(ps);
    if |ps| > 0 {
      SortedHeadIsLargest(sorted, ps);
      var p := sorted[0];
      assert CurrentPeriod(sorted) == Some(IntToText(p.id));
    } else {
      assert multiset(sorted) == multiset{};
    }
  }
}
