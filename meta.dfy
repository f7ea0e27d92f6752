/** The class, teacher and timegrid parts of `meta.json` that `handle_school`
    assembles (PyUntis.py, lines 158-187). */
module Meta {
  import opened Json
  import opened UntisClasses
  import opened Sorting

  // ---------------------------------------------------------------------------
  // meta["classes"]

  /** The names of `cs`, in order. */
  function Names(cs: seq<SchoolClass>): (ns: seq<Json>)
    ensures |ns| == |cs| && forall i | 0 <= i < |cs| :: ns[i] == cs[i].name
  {
    seq(|cs|, i requires 0 <= i < |cs| => cs[i].name)
  }

  /** The ids of `cs`, in order. */
  function Ids(cs: seq<SchoolClass>): (ids: seq<Json>)
    ensures |ids| == |cs| && forall i | 0 <= i < |cs| :: ids[i] == cs[i].id
  {
    seq(|cs|, i requires 0 <= i < |cs| => cs[i].id)
  }

  /** The sort key of lines 161 and 164 for one class: `collate` of its name, where
      `collate` stands for lower-casing followed by ICU's sort key or by the
      lower-cased text itself. A name that is not a string has no `lower()`. */
  function ClassKey(collate: string -> int): SchoolClass -> int {
    (kl: SchoolClass) => if kl.name.Str? then collate(kl.name.s) else 0
  }

  /** Every class has a string name, so its sort key can be computed. */
  predicate NamesAreStrings(classes: seq<SchoolClass>) {
    forall i | 0 <= i < |classes| :: classes[i].name.Str?
  }

  /** `meta["classes"]`: the classes sorted by the collation key of their names;
      `sorted` computes every key first, so a class whose name is not a string
      stops it with AttributeError. */
  function ClassesMeta(classes: seq<SchoolClass>, collate: string -> int): Result<Json> {
    if !NamesAreStrings(classes) then Err(AttributeError)
    else
      var sorted := SortBy(classes, ClassKey(collate));
      Ok(Object(map["names" := List(Names(sorted)), "ids" := List(Ids(sorted)), "length" := Int(|sorted|)]))
  }

  /** The class list fails exactly when a name is not a string; otherwise it names
      every class once, in ascending order of the collated names, with names and
      ids at matching places, and its length is the number of classes. */
  lemma ClassesMetaListsEachClass(classes: seq<SchoolClass>, collate: string -> int)
    ensures ClassesMeta(classes, collate).Err? <==> exists i | 0 <= i < |classes| :: !classes[i].name.Str?
    ensures ClassesMeta(classes, collate).Err? ==> ClassesMeta(classes, collate).error == AttributeError
    ensures ClassesMeta(classes, collate).Ok? ==> var m := ClassesMeta(classes, collate).value;
      m.Object? && m.fields.Keys == {"names", "ids", "length"} && m.fields["length"] == Int(|classes|)
      && exists s: seq<SchoolClass> ::
        multiset(s) == multiset(classes) && NamesAreStrings(s)
        && (forall i, j | 0 <= i < j < |s| :: collate(s[i].name.s) <= collate(s[j].name.s))
        && m.fields["names"] == List(Names(s)) && m.fields["ids"] == List(Ids(s))
  {
    if NamesAreStrings(classes) {
      var key := ClassKey(collate);
      var s := SortBy(classes, key);
      SortBySorted(classes, key);
      var m := ClassesMeta(classes, collate).value;
      assert m.fields["names"] == List(Names(s)) && m.fields["ids"] == List(Ids(s));
      forall i | 0 <= i < |s|
        ensures s[i].name.Str? && key(s[i]) == collate(s[i].name.s)
      {
        assert s[i] in multiset(classes);
      }
    }
  }

  // ---------------------------------------------------------------------------
  // meta["teachers"]

  /** `meta["teachers"]`: teacher id to teacher name, a later teacher replacing
      an earlier one with the same id; an id Python cannot hash (a list or a
      dict) raises TypeError. `teachers` is the fetched list followed by the
      ones read from the school's teacher file. */
  function TeacherIndex(teachers: seq<Teacher>): (r: Result<map<Json, Json>>)
    ensures r.Ok? ==> teachers == [] || teachers[|teachers| - 1].id in r.value
  {
    if teachers == [] then Ok(map[])
    else
      var index :- TeacherIndex(teachers[..|teachers| - 1]);
      var t := teachers[|teachers| - 1];
      if !Hashable(t.id) then Err(TypeError) else Ok(index[t.id := t.name])
  }

  /** The index is built exactly when every id is hashable, and its keys are
      the teachers' ids. */
  lemma {:induction false} TeacherIndexKeys(teachers: seq<Teacher>)
    ensures TeacherIndex(teachers).Ok? <==> forall i | 0 <= i < |teachers| :: Hashable(teachers[i].id)
    ensures TeacherIndex(teachers).Ok? ==> TeacherIndex(teachers).value.Keys == set t | t in teachers :: t.id
  {
    if teachers != [] {
      var n := |teachers| - 1;
      var front := teachers[..n];
      TeacherIndexKeys(front);
      assert forall i | 0 <= i < n :: front[i] == teachers[i];
      assert teachers == front + [teachers[n]];
    }
  }

  /** Each id names the last teacher that has it. */
  lemma {:induction false} LastTeacherWins(teachers: seq<Teacher>, i: nat)
    requires TeacherIndex(teachers).Ok? && i < |teachers|
    requires forall j | i < j < |teachers| :: teachers[j].id != teachers[i].id
    ensures teachers[i].id in TeacherIndex(teachers).value
    ensures TeacherIndex(teachers).value[teachers[i].id] == teachers[i].name
  {
    var n := |teachers| - 1;
    if i < n {
      var front := teachers[..n];
      assert forall j | i < j < n :: front[j] == teachers[j];
      LastTeacherWins(front, i);
    }
  }

  /** Lines 179-181: the teacher loop. */
  method TeachersMeta(teachers: seq<Teacher>) returns (res: Result<map<Json, Json>>)
    ensures res == TeacherIndex(teachers)
  {
    var index: map<Json, Json> := map[];
    var i := 0;
    while i < |teachers|
      invariant 0 <= i <= |teachers|
      invariant TeacherIndex(teachers[..i]) == Ok(index)
    {
      var t := teachers[i];
      assert teachers[..i + 1][..i] == teachers[..i];
      if !Hashable(t.id) {
        NoIndexPastFailure(teachers, i + 1);
        return Err(TypeError);
      }
      index := index[t.id := t.name];
      i := i + 1;
    }
    assert teachers[..i] == teachers;
    return Ok(index);
  }

  /** Once a prefix fails, the whole list fails with the same error. */
  lemma {:induction false} NoIndexPastFailure(teachers: seq<Teacher>, n: nat)
    requires n <= |teachers| && TeacherIndex(teachers[..n]).Err?
    ensures TeacherIndex(teachers) == TeacherIndex(teachers[..n])
  {
    if n < |teachers| {
      var m := |teachers| - 1;
      assert teachers[..m][..n] == teachers[..n];
      NoIndexPastFailure(teachers[..m], n);
    } else {
      assert teachers[..n] == teachers;
    }
  }

  // ---------------------------------------------------------------------------
  // meta["timegrid"]

  /** The place where Python's `list.insert(i, x)` puts `x` in a list of
      length `n`: a negative index counts from the end, and an index out of
      range is clipped to the nearest end. */
  function InsertPlace(n: nat, i: int): (p: nat)
    ensures p <= n
    ensures 0 <= i <= n ==> p == i
    ensures i > n ==> p == n
  {
    if i < 0 then (if n + i < 0 then 0 else n + i)
    else if i > n then n
    else i
  }

  /** `xs.insert(i, x)`. */
  function PyInsert<T>(xs: seq<T>, i: int, x: T): (r: seq<T>)
    ensures |r| == |xs| + 1
    ensures var p := InsertPlace(|xs|, i); r[p] == x && r[..p] == xs[..p] && r[p + 1..] == xs[p..]
  {
    var p := InsertPlace(|xs|, i);
    xs[..p] + [x] + xs[p..]
  }

  /** `meta["timegrid"]` after the loop: each day's grid inserted at its day
      number, in the order the server listed them. */
  function TimegridList(grids: seq<DayGrid>): (tg: seq<Json>)
    ensures |tg| == |grids|
  {
    if grids == [] then []
    else
      var g := grids[|grids| - 1];
      PyInsert(TimegridList(grids[..|grids| - 1]), g.day, DayGridJson(g))
  }

  /** Lines 185-187: the timegrid loop. */
  method TimegridMeta(grids: seq<DayGrid>) returns (tg: seq<Json>)
    ensures tg == TimegridList(grids)
  {
    tg := [];
    var i := 0;
    while i < |grids|
      invariant 0 <= i <= |grids|
      invariant tg == TimegridList(grids[..i])
    {
      var g := grids[i];
      assert grids[..i + 1][..i] == grids[..i];
      var p := InsertPlace(|tg|, g.day);
      tg := tg[..p] + [DayGridJson(g)] + tg[p..];
      i := i + 1;
    }
    assert grids[..i] == grids;
  }

  /** The timegrid holds every day's grid once. */
  lemma {:induction false} TimegridHoldsEveryDay(grids: seq<DayGrid>)
    ensures multiset(TimegridList(grids)) == multiset(GridJsons(grids))
  {
    if grids != [] {
      var n := |grids| - 1;
      var front := grids[..n];
      var x, before := DayGridJson(grids[n]), TimegridList(front);
      calc {
        multiset(TimegridList(grids));
        { InsertAddsOne(before, grids[n].day, x); }
        multiset(before) + multiset{x};
        { TimegridHoldsEveryDay(front); }
        multiset(GridJsons(front)) + multiset{x};
        multiset(GridJsons(front) + [x]);
        { assert GridJsons(grids) == GridJsons(front) + [x]; }
        multiset(GridJsons(grids));
      }
    }
  }

  /** The grids as the server listed them, rendered. */
  function GridJsons(grids: seq<DayGrid>): (js: seq<Json>)
    ensures |js| == |grids| && forall i | 0 <= i < |grids| :: js[i] == DayGridJson(grids[i])
  {
    seq(|grids|, i requires 0 <= i < |grids| => DayGridJson(grids[i]))
  }

  /** `insert` adds its element and keeps all others. */
  lemma InsertAddsOne<T>(xs: seq<T>, i: int, x: T)
    ensures multiset(PyInsert(xs, i, x)) == multiset(xs) + multiset{x}
  {
    var p := InsertPlace(|xs|, i);
    assert xs == xs[..p] + xs[p..];
  }

  /** When every grid's day number is at least its place in the server's list
      (the days come in order, Monday first, as `GridDay` numbers them), each
      insert appends, and `timegrid[k]` is the `k`-th grid. */
  lemma {:induction false} OrderedDaysStayInPlace(grids: seq<DayGrid>)
    requires forall k | 0 <= k < |grids| :: grids[k].day >= k
    ensures TimegridList(grids) == GridJsons(grids)
  {
    if grids != [] {
      var n := |grids| - 1;
      var front := grids[..n];
      assert forall k | 0 <= k < n :: front[k] == grids[k];
      var x := DayGridJson(grids[n]);
      calc {
        TimegridList(grids);
        PyInsert(TimegridList(front), grids[n].day, x);
        { OrderedDaysStayInPlace(front); }
        PyInsert(GridJsons(front), grids[n].day, x);
        { assert InsertPlace(n, grids[n].day) == n; }
        GridJsons(front) + [x];
        GridJsons(grids);
      }
    }
  }

  /** Listed Sunday first, the week's grids do not land at their day numbers:
      Sunday (day 6) ends up at index 1, after Monday. */
  lemma SundayFirstIsMisplaced(sunday: DayGrid, monday: DayGrid)
    requires sunday.day == 6 && monday.day == 0
    ensures TimegridList([sunday, monday]) == [DayGridJson(monday), DayGridJson(sunday)]
  {
    assert [sunday, monday][..1] == [sunday];
    assert [sunday][..0] == [];
  }
}
