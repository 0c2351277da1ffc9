/** The acceptance-filter table a connection installs on its bus.

    A bus reports its filters as an optional list (python-can answers `None`
    when nothing is installed). `addFilter` reads that list, appends one entry
    with the fixed mask 0xFFF and `extended` false, and installs the whole
    list again. */
module FilterTable {

  datatype Option<T> = None | Some(value: T)

  /** The mask every entry installed by a connection carries. */
  const Mask: int := 0xFFF

  /** One acceptance rule: python-can's `{"can_id", "can_mask", "extended"}`. */
  datatype Filter = Filter(canId: int, canMask: int, extended: bool)

  /** The entry `addFilter(id)` installs. */
  function Entry(id: int): Filter {
    Filter(id, Mask, false)
  }

  /** The entries of a reported filter list; an absent list has none. */
  function Installed(filters: Option<seq<Filter>>): seq<Filter> {
    match filters
    case None => []
    case Some(t) => t
  }

  /** The list `addFilter(id)` hands to the bus, given the list the bus reported. */
  function Appended(filters: Option<seq<Filter>>, id: int): (r: seq<Filter>)
    ensures |r| == |Installed(filters)| + 1
    ensures r[..|r| - 1] == Installed(filters)
    ensures r[|r| - 1].canId == id && r[|r| - 1].canMask == 0xFFF && !r[|r| - 1].extended
    ensures filters.None? ==> r == [Filter(id, 0xFFF, false)]
  {
    match filters
    case Some(t) => t + [Entry(id)]
    case None => [Entry(id)]
  }

  /** The list a bus reports after `addFilter` was called once for each of `ids`, in order. */
  function AfterAddFilters(filters: Option<seq<Filter>>, ids: seq<int>): Option<seq<Filter>>
    decreases |ids|
  {
    if ids == [] then filters else AfterAddFilters(Some(Appended(filters, ids[0])), ids[1..])
  }

  /** The entries for `ids`, in order. */
  function Entries(ids: seq<int>): seq<Filter> {
    if ids == [] then [] else [Entry(ids[0])] + Entries(ids[1..])
  }

  /** A run of `addFilter` calls leaves the old entries in place and adds
      exactly one entry per call, in call order; after at least one call a
      list is installed. */
  lemma {:induction false} AddFiltersAppends(filters: Option<seq<Filter>>, ids: seq<int>)
    ensures Installed(AfterAddFilters(filters, ids)) == Installed(filters) + Entries(ids)
    ensures ids != [] ==> AfterAddFilters(filters, ids).Some?
    decreases |ids|
  {
    if ids != [] {
      var next := Some(Appended(filters, ids[0]));
      assert AfterAddFilters(filters, ids) == AfterAddFilters(next, ids[1..]);
      AddFiltersAppends(next, ids[1..]);
      assert Installed(next) == Installed(filters) + [Entry(ids[0])];
      assert Entries(ids) == [Entry(ids[0])] + Entries(ids[1..]);
      if ids[1..] == [] {
        assert AfterAddFilters(next, ids[1..]) == next;
      }
    }
  }

  /** The table only grows: every entry installed before a run of `addFilter`
      calls is still installed afterwards, at the same position. */
  lemma {:induction false} TableOnlyGrows(filters: Option<seq<Filter>>, ids: seq<int>)
    ensures |Installed(AfterAddFilters(filters, ids))| == |Installed(filters)| + |ids|
    ensures forall k :: 0 <= k < |Installed(filters)| ==>
      Installed(AfterAddFilters(filters, ids))[k] == Installed(filters)[k]
  {
    AddFiltersAppends(filters, ids);
    EntriesLength(ids);
  }

  lemma {:induction false} EntriesLength(ids: seq<int>)
    ensures |Entries(ids)| == |ids|
    decreases |ids|
  {
    if ids != [] {
      EntriesLength(ids[1..]);
    }
  }
}
