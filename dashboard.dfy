/**
 * `DashboardProvider` (src/contexts/DashboardContext.tsx): the dashboard's
 * view controls and the list of business objectives whose progress can be
 * updated by id. Objective figures are reals; the toasts are not modelled.
 */
module Dashboard {
  import opened Seqs

  datatype ViewPeriod = Day | Week | Month | Quarter | Year
  datatype DataFilter = All | Sales | Expenses | Inventory
  datatype Category = Revenue | Cost | Growth | Efficiency

  datatype Objective = Objective(id: string, title: string, target: real, current: real, unit: string, category: Category)

  /** The four sample objectives the provider starts with. */
  const InitialObjectives: seq<Objective> := [
    Objective("obj-1", "Quarterly Revenue", 500000.0, 378500.0, "USD", Revenue),
    Objective("obj-2", "Cost Reduction", 15.0, 8.7, "percent", Cost),
    Objective("obj-3", "Customer Growth", 100.0, 63.0, "customers", Growth),
    Objective("obj-4", "Inventory Turnover", 12.0, 9.2, "ratio", Efficiency)
  ]

  /**
   * `updateObjectiveProgress(id, value)` on a list: each objective with that
   * id gets `current = value`; every other field and every other objective
   * is kept, in place.
   */
  function UpdateProgress(objs: seq<Objective>, id: string, value: real): (r: seq<Objective>)
    ensures |r| == |objs|
    ensures forall i :: 0 <= i < |objs| ==> r[i].id == objs[i].id && r[i].title == objs[i].title
    ensures forall i :: 0 <= i < |objs| ==>
              r[i].target == objs[i].target && r[i].unit == objs[i].unit && r[i].category == objs[i].category
    ensures forall i :: 0 <= i < |objs| && objs[i].id == id ==> r[i].current == value
    ensures forall i :: 0 <= i < |objs| && objs[i].id != id ==> r[i] == objs[i]
  {
    UpdateWhere(objs, (o: Objective) => o.id == id, (o: Objective) => o.(current := value))
  }

  /** Some objective carries the id. */
  predicate HasId(objs: seq<Objective>, id: string) {
    exists i :: 0 <= i < |objs| && objs[i].id == id
  }

  /** An id no objective carries leaves the list as it was. */
  lemma {:induction false} UnknownIdUnchanged(objs: seq<Objective>, id: string, value: real)
    requires !HasId(objs, id)
    ensures UpdateProgress(objs, id, value) == objs
  {
    var r := UpdateProgress(objs, id, value);
    forall i | 0 <= i < |objs| ensures r[i] == objs[i] {
      assert objs[i].id != id;
    }
  }

  /** Updating an id twice is updating it with the second value; in particular the update is idempotent. */
  lemma {:induction false} LastUpdateWins(objs: seq<Objective>, id: string, v: real, w: real)
    ensures UpdateProgress(UpdateProgress(objs, id, v), id, w) == UpdateProgress(objs, id, w)
    ensures UpdateProgress(UpdateProgress(objs, id, v), id, v) == UpdateProgress(objs, id, v)
  {
    var once := UpdateProgress(objs, id, v);
    var twice := UpdateProgress(once, id, w);
    var direct := UpdateProgress(objs, id, w);
    forall i | 0 <= i < |objs| ensures twice[i] == direct[i] {
      if objs[i].id == id {
        assert once[i].id == id;
      }
    }
    var again := UpdateProgress(once, id, v);
    forall i | 0 <= i < |objs| ensures again[i] == once[i] {
      if objs[i].id == id {
        assert once[i].id == id;
      }
    }
  }

  /** Updates of different objectives do not interfere: their order does not matter. */
  lemma {:induction false} UpdatesCommute(objs: seq<Objective>, a: string, v: real, b: string, w: real)
    requires a != b
    ensures UpdateProgress(UpdateProgress(objs, a, v), b, w) == UpdateProgress(UpdateProgress(objs, b, w), a, v)
  {
    var ab := UpdateProgress(UpdateProgress(objs, a, v), b, w);
    var ba := UpdateProgress(UpdateProgress(objs, b, w), a, v);
    forall i | 0 <= i < |objs| ensures ab[i] == ba[i] {
      if objs[i].id == a {
        assert ab[i] == objs[i].(current := v);
      } else if objs[i].id == b {
        assert ba[i] == objs[i].(current := w);
      }
    }
  }

  /** The provider's state. */
  class Provider {
    var viewPeriod: ViewPeriod
    var dataFilter: DataFilter
    var isDenseView: bool
    var businessObjectives: seq<Objective>

    /** Month view, no data filter, normal density, the sample objectives. */
    constructor ()
      ensures viewPeriod == Month && dataFilter == All && !isDenseView
      ensures businessObjectives == InitialObjectives
    {
      viewPeriod := Month;
      dataFilter := All;
      isDenseView := false;
      businessObjectives := InitialObjectives;
    }

    method SetViewPeriod(p: ViewPeriod)
      modifies this
      ensures viewPeriod == p && dataFilter == old(dataFilter) && isDenseView == old(isDenseView)
      ensures businessObjectives == old(businessObjectives)
    {
      viewPeriod := p;
    }

    method SetDataFilter(f: DataFilter)
      modifies this
      ensures dataFilter == f && viewPeriod == old(viewPeriod) && isDenseView == old(isDenseView)
      ensures businessObjectives == old(businessObjectives)
    {
      dataFilter := f;
    }

    method SetIsDenseView(dense: bool)
      modifies this
      ensures isDenseView == dense && viewPeriod == old(viewPeriod) && dataFilter == old(dataFilter)
      ensures businessObjectives == old(businessObjectives)
    {
      isDenseView := dense;
    }

    method UpdateObjectiveProgress(id: string, value: real)
      modifies this
      ensures businessObjectives == UpdateProgress(old(businessObjectives), id, value)
      ensures viewPeriod == old(viewPeriod) && dataFilter == old(dataFilter) && isDenseView == old(isDenseView)
    {
      businessObjectives := UpdateProgress(businessObjectives, id, value);
    }
  }
}
