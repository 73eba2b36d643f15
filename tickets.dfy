/**
 * The helpdesk tickets page (tickets/index.tsx): the client-side filter
 * over all loaded tickets, and the page state it works on, namely the
 * filter criteria and the set of selected ticket ids with its toggle and
 * select-all handlers.
 */
module Tickets {
  import opened Common
  import opened Text
  import opened Seqs

  /** One helpdesk ticket, as far as the filter reads it. */
  datatype Ticket = Ticket(
    id: int,
    status: string,
    priority: string,
    categoryId: Option<int>,
    assigneeId: Option<string>,
    title: Option<string>,
    description: Option<string>,
    ticketNumber: Option<string>,
    createdAt: int)                  // milliseconds since the epoch

  /**
   * The filter criteria. A text criterion is set when it is truthy (`null`,
   * missing and "" all mean "any"); a date bound is set when present.
   */
  datatype Filters = Filters(
    status: Option<string>,
    priority: Option<string>,
    category: Option<string>,
    assignee: Option<string>,
    search: Option<string>,
    dateFrom: Option<int>,
    dateTo: Option<int>)

  /** The page's initial criteria, `{}`. */
  const NoFilters: Filters := Filters(None, None, None, None, None, None, None)

  /** The assignee value that asks for tickets nobody is assigned to. */
  const Unassigned: string := "unassigned"

  /** `ticket.category_id?.toString()` */
  function CategoryText(categoryId: Option<int>): Option<string> {
    if categoryId.Some? then Some(IntToString(categoryId.value)) else None
  }

  /** `field?.toLowerCase().includes(term)`: an absent field never matches. */
  predicate FieldIncludes(field: Option<string>, term: string) {
    field.Some? && Includes(Lower(field.value), term)
  }

  /** The search test: the term occurs in the title, the description or the ticket number. */
  predicate MatchesSearch(t: Ticket, term: string) {
    FieldIncludes(t.title, term) || FieldIncludes(t.description, term) || FieldIncludes(t.ticketNumber, term)
  }

  /** The filter callback, in the order its early returns test the criteria. */
  predicate Matches(f: Filters, t: Ticket) {
    if Truthy(f.status) && t.status != f.status.value then false
    else if Truthy(f.priority) && t.priority != f.priority.value then false
    else if Truthy(f.category) && CategoryText(t.categoryId) != Some(f.category.value) then false
    else if f.assignee == Some(Unassigned) && Truthy(t.assigneeId) then false
    else if Truthy(f.assignee) && f.assignee.value != Unassigned && t.assigneeId != Some(f.assignee.value) then false
    else if Truthy(f.search) && !MatchesSearch(t, Lower(f.search.value)) then false
    else if f.dateFrom.Some? && t.createdAt < f.dateFrom.value then false
    else if f.dateTo.Some? && t.createdAt > f.dateTo.value then false
    else true
  }

  /** The filter callback as a function value. */
  function MatchesAt(f: Filters): Ticket -> bool {
    (t: Ticket) => Matches(f, t)
  }

  /** `(allTickets || []).filter(…)`: tickets not yet loaded filter to nothing. */
  function FilterTickets(allTickets: Option<seq<Ticket>>, f: Filters): (r: seq<Ticket>)
    ensures IsSubsequence(r, allTickets.GetOr([]))
    ensures forall t :: t in r <==> t in allTickets.GetOr([]) && Matches(f, t)
    ensures allTickets.None? ==> r == []
  {
    FilterIsSubsequence(allTickets.GetOr([]), MatchesAt(f));
    Filter(allTickets.GetOr([]), MatchesAt(f))
  }

  /** The filtered list keeps every copy of a matching ticket and none of any other. */
  lemma FilterTicketsCounts(allTickets: Option<seq<Ticket>>, f: Filters, t: Ticket)
    ensures multiset(FilterTickets(allTickets, f))[t] == if Matches(f, t) then multiset(allTickets.GetOr([]))[t] else 0
  {
    FilterMultiplicity(allTickets.GetOr([]), MatchesAt(f));
  }

  // Each criterion on its own, as a condition on the ticket.

  predicate StatusOk(f: Filters, t: Ticket) {
    Truthy(f.status) ==> t.status == f.status.value
  }

  predicate PriorityOk(f: Filters, t: Ticket) {
    Truthy(f.priority) ==> t.priority == f.priority.value
  }

  predicate CategoryOk(f: Filters, t: Ticket) {
    Truthy(f.category) ==> CategoryText(t.categoryId) == f.category
  }

  predicate AssigneeOk(f: Filters, t: Ticket) {
    Truthy(f.assignee) ==>
      if f.assignee.value == Unassigned then !Truthy(t.assigneeId) else t.assigneeId == f.assignee
  }

  predicate SearchOk(f: Filters, t: Ticket) {
    Truthy(f.search) ==> MatchesSearch(t, Lower(f.search.value))
  }

  predicate DatesOk(f: Filters, t: Ticket) {
    (f.dateFrom.Some? ==> f.dateFrom.value <= t.createdAt) && (f.dateTo.Some? ==> t.createdAt <= f.dateTo.value)
  }

  /** The early returns amount to the conjunction of the criteria, each one checked on its own. */
  lemma MatchesIffAll(f: Filters, t: Ticket)
    ensures Matches(f, t) <==>
            StatusOk(f, t) && PriorityOk(f, t) && CategoryOk(f, t) && AssigneeOk(f, t) &&
            SearchOk(f, t) && DatesOk(f, t)
  {
  }

  /** No criteria set: nothing is set, by any of the ways of saying "any". */
  predicate NoCriteria(f: Filters) {
    !Truthy(f.status) && !Truthy(f.priority) && !Truthy(f.category) && !Truthy(f.assignee) &&
    !Truthy(f.search) && f.dateFrom.None? && f.dateTo.None?
  }

  /** With no criteria set the filtered list is the loaded list itself. */
  lemma NoCriteriaKeepsAll(allTickets: seq<Ticket>, f: Filters)
    requires NoCriteria(f)
    ensures FilterTickets(Some(allTickets), f) == allTickets
  {
    FilterAll(allTickets, MatchesAt(f));
  }

  /** A status criterion keeps exactly the tickets of that status, on top of the other criteria. */
  lemma StatusCriterion(f: Filters, status: string, t: Ticket)
    requires status != ""
    ensures Matches(f.(status := Some(status)), t) <==> Matches(f.(status := None), t) && t.status == status
  {
    MatchesIffAll(f.(status := Some(status)), t);
    MatchesIffAll(f.(status := None), t);
  }

  /** A priority criterion keeps exactly the tickets of that priority, on top of the other criteria. */
  lemma PriorityCriterion(f: Filters, priority: string, t: Ticket)
    requires priority != ""
    ensures Matches(f.(priority := Some(priority)), t) <==> Matches(f.(priority := None), t) && t.priority == priority
  {
    MatchesIffAll(f.(priority := Some(priority)), t);
    MatchesIffAll(f.(priority := None), t);
  }

  /**
   * A category criterion holding the decimal form of a category id keeps
   * exactly the tickets of that category: distinct ids have distinct
   * decimal forms, and a ticket without a category never matches.
   */
  lemma CategoryCriterion(f: Filters, category: int, t: Ticket)
    ensures Matches(f.(category := Some(IntToString(category))), t) <==>
            Matches(f.(category := None), t) && t.categoryId == Some(category)
  {
    SignShowsInFirstChar(category);
    MatchesIffAll(f.(category := Some(IntToString(category))), t);
    MatchesIffAll(f.(category := None), t);
    if t.categoryId.Some? && IntToString(t.categoryId.value) == IntToString(category) {
      IntToStringInjective(t.categoryId.value, category);
    }
  }

  /** Assignee "unassigned" keeps exactly the tickets without an assignee (none, or empty). */
  lemma UnassignedCriterion(f: Filters, t: Ticket)
    ensures Matches(f.(assignee := Some(Unassigned)), t) <==> Matches(f.(assignee := None), t) && !Truthy(t.assigneeId)
  {
    MatchesIffAll(f.(assignee := Some(Unassigned)), t);
    MatchesIffAll(f.(assignee := None), t);
  }

  /** Any other assignee keeps exactly the tickets assigned to that user. */
  lemma AssigneeCriterion(f: Filters, assignee: string, t: Ticket)
    requires assignee != "" && assignee != Unassigned
    ensures Matches(f.(assignee := Some(assignee)), t) <==> Matches(f.(assignee := None), t) && t.assigneeId == Some(assignee)
  {
    MatchesIffAll(f.(assignee := Some(assignee)), t);
    MatchesIffAll(f.(assignee := None), t);
  }

  /**
   * A search term keeps exactly the tickets where the lower-cased term
   * occurs in the lower-cased title, description or ticket number; an
   * absent field never matches.
   */
  lemma SearchCriterion(f: Filters, term: string, t: Ticket)
    requires term != ""
    ensures Matches(f.(search := Some(term)), t) <==>
            Matches(f.(search := None), t) &&
            (Occurs(t.title, Lower(term)) || Occurs(t.description, Lower(term)) || Occurs(t.ticketNumber, Lower(term)))
  {
    MatchesIffAll(f.(search := Some(term)), t);
    MatchesIffAll(f.(search := None), t);
    FieldIncludesIff(t.title, Lower(term));
    FieldIncludesIff(t.description, Lower(term));
    FieldIncludesIff(t.ticketNumber, Lower(term));
  }

  /** The field is present and `term` occurs somewhere in its lower-cased text. */
  ghost predicate Occurs(field: Option<string>, term: string) {
    field.Some? && exists i :: OccursAt(Lower(field.value), term, i)
  }

  /** `includes` on a field is the occurrence test above. */
  lemma FieldIncludesIff(field: Option<string>, term: string)
    ensures FieldIncludes(field, term) <==> Occurs(field, term)
  {
    if field.Some? {
      var low := Lower(field.value);
      IncludesIffOccurs(low, term);
      if FieldIncludes(field, term) {
        var i :| OccursAt(low, term, i);
        assert OccursAt(Lower(field.value), term, i);
      }
    }
  }

  /** The date range is inclusive: only tickets created strictly outside it are dropped. */
  lemma DateRangeCriterion(f: Filters, from: int, to: int, t: Ticket)
    ensures Matches(f.(dateFrom := Some(from), dateTo := Some(to)), t) <==>
            Matches(f.(dateFrom := None, dateTo := None), t) && from <= t.createdAt <= to
  {
    MatchesIffAll(f.(dateFrom := Some(from), dateTo := Some(to)), t);
    MatchesIffAll(f.(dateFrom := None, dateTo := None), t);
  }

  /** Searching "LOGIN" finds a ticket titled "Login fails": the comparison ignores case. */
  lemma SearchIgnoresCase()
    ensures var t := Ticket(7, "open", "high", None, None, Some("Login fails"), None, None, 0);
            Matches(NoFilters.(search := Some("LOGIN")), t)
  {
    var t := Ticket(7, "open", "high", None, None, Some("Login fails"), None, None, 0);
    var f := NoFilters.(search := Some("LOGIN"));
    LoginFailsIncludesLogin();
    assert FieldIncludes(t.title, Lower("LOGIN"));
    MatchesIffAll(f, t);
  }

  /** The lower-cased title "Login fails" includes the lower-cased "LOGIN". */
  lemma LoginFailsIncludesLogin()
    ensures Includes(Lower("Login fails"), Lower("LOGIN"))
  {
    assert Lower("LOGIN") == "login";
    assert "Login fails" == "Login" + " fails";
    LowerConcat("Login", " fails");
    assert Lower("Login") == "login";
    IncludesPrefix("login", Lower(" fails"));
  }

  /** Two sets of criteria that never set the same criterion. */
  predicate Disjoint(f: Filters, g: Filters) {
    !(Truthy(f.status) && Truthy(g.status)) && !(Truthy(f.priority) && Truthy(g.priority)) &&
    !(Truthy(f.category) && Truthy(g.category)) && !(Truthy(f.assignee) && Truthy(g.assignee)) &&
    !(Truthy(f.search) && Truthy(g.search)) &&
    !(f.dateFrom.Some? && g.dateFrom.Some?) && !(f.dateTo.Some? && g.dateTo.Some?)
  }

  /** The criteria of both, each taken from whichever sets it. */
  function Merge(f: Filters, g: Filters): Filters {
    Filters(
      if Truthy(f.status) then f.status else g.status,
      if Truthy(f.priority) then f.priority else g.priority,
      if Truthy(f.category) then f.category else g.category,
      if Truthy(f.assignee) then f.assignee else g.assignee,
      if Truthy(f.search) then f.search else g.search,
      if f.dateFrom.Some? then f.dateFrom else g.dateFrom,
      if f.dateTo.Some? then f.dateTo else g.dateTo)
  }

  /** A ticket passes the merged criteria exactly when it passes both. */
  lemma MergeMatches(f: Filters, g: Filters, t: Ticket)
    requires Disjoint(f, g)
    ensures Matches(Merge(f, g), t) <==> Matches(f, t) && Matches(g, t)
  {
    MatchesIffAll(Merge(f, g), t);
    MatchesIffAll(f, t);
    MatchesIffAll(g, t);
  }

  /** A ticket passes both sets of criteria, as a function value. */
  function BothAt(f: Filters, g: Filters): Ticket -> bool {
    (t: Ticket) => Matches(f, t) && Matches(g, t)
  }

  /** Filtering by one set of criteria and then by another is the same in either order, for any two sets. */
  lemma FiltersCommute(tickets: seq<Ticket>, f: Filters, g: Filters)
    ensures FilterTickets(Some(FilterTickets(Some(tickets), f)), g) == FilterTickets(Some(FilterTickets(Some(tickets), g)), f)
  {
    FilterFilter(tickets, MatchesAt(f), MatchesAt(g), BothAt(f, g));
    FilterFilter(tickets, MatchesAt(g), MatchesAt(f), BothAt(f, g));
  }

  /**
   * The criteria are conjunctive: filtering by one set of criteria and then
   * by another that sets different criteria is filtering once by both, and
   * the order of the two filters does not matter.
   */
  lemma FilterTwice(tickets: seq<Ticket>, f: Filters, g: Filters)
    requires Disjoint(f, g)
    ensures FilterTickets(Some(FilterTickets(Some(tickets), f)), g) == FilterTickets(Some(tickets), Merge(f, g))
    ensures FilterTickets(Some(FilterTickets(Some(tickets), f)), g) == FilterTickets(Some(FilterTickets(Some(tickets), g)), f)
  {
    forall t: Ticket
      ensures MatchesAt(Merge(f, g))(t) == (MatchesAt(f)(t) && MatchesAt(g)(t))
      ensures MatchesAt(Merge(f, g))(t) == (MatchesAt(g)(t) && MatchesAt(f)(t))
    {
      MergeMatches(f, g, t);
    }
    FilterFilter(tickets, MatchesAt(f), MatchesAt(g), MatchesAt(Merge(f, g)));
    FilterFilter(tickets, MatchesAt(g), MatchesAt(f), MatchesAt(Merge(f, g)));
  }

  // Selection

  /** No id appears twice. */
  predicate NoDuplicates(ids: seq<int>) {
    forall i, j :: 0 <= i < j < |ids| ==> ids[i] != ids[j]
  }

  /** The test `x !== id`, as a function value. */
  function Other(id: int): int -> bool {
    (x: int) => x != id
  }

  /** `prev.includes(id) ? prev.filter(x => x !== id) : [...prev, id]` */
  function Toggled(ids: seq<int>, id: int): (r: seq<int>)
    ensures id in r <==> id !in ids
    ensures forall x :: x != id ==> (x in r <==> x in ids)
  {
    if id in ids then Filter(ids, Other(id)) else ids + [id]
  }

  /** Filtering keeps a list free of duplicates. */
  lemma {:induction false} FilterNoDuplicates(ids: seq<int>, p: int -> bool)
    requires NoDuplicates(ids)
    ensures NoDuplicates(Filter(ids, p))
    decreases |ids|
  {
    if ids != [] {
      FilterNoDuplicates(ids[1..], p);
      assert ids[0] !in ids[1..];
    }
  }

  /** Toggling keeps the selection free of duplicates. */
  lemma ToggleKeepsNoDuplicates(ids: seq<int>, id: int)
    requires NoDuplicates(ids)
    ensures NoDuplicates(Toggled(ids, id))
  {
    if id in ids {
      FilterNoDuplicates(ids, Other(id));
    }
  }

  /**
   * Toggling twice restores the selection's membership; when the id was not
   * selected it restores the selection exactly.
   */
  lemma {:induction false} ToggleTwice(ids: seq<int>, id: int)
    ensures forall x :: x in Toggled(Toggled(ids, id), id) <==> x in ids
    ensures id !in ids ==> Toggled(Toggled(ids, id), id) == ids
  {
    if id !in ids {
      FilterConcat(ids, [id], Other(id));
      FilterAll(ids, Other(id));
      assert Filter([id], Other(id)) == [];
    }
  }

  /** The tickets page's state. */
  class TicketsPage {
    /** The loaded tickets; absent until the query has answered. */
    var allTickets: Option<seq<Ticket>>
    var filters: Filters
    var selectedIds: seq<int>

    constructor(allTickets: Option<seq<Ticket>>)
      ensures this.allTickets == allTickets && filters == NoFilters && selectedIds == []
    {
      this.allTickets := allTickets;
      filters := NoFilters;
      selectedIds := [];
    }

    /** The tickets the page lists. */
    function Visible(): seq<Ticket>
      reads this
    {
      FilterTickets(allTickets, filters)
    }

    /** `handleSelectTicket(id)`: flips whether `id` is selected. */
    method SelectTicket(id: int)
      modifies this
      ensures selectedIds == Toggled(old(selectedIds), id)
      ensures id in selectedIds <==> id !in old(selectedIds)
      ensures forall x :: x != id ==> (x in selectedIds <==> x in old(selectedIds))
      ensures allTickets == old(allTickets) && filters == old(filters)
    {
      selectedIds := Toggled(selectedIds, id);
    }

    /** `handleSelectAll(checked)`: selects exactly the listed tickets, or nothing. */
    method SelectAll(checked: bool)
      modifies this
      ensures checked ==> |selectedIds| == |Visible()| &&
                          forall i :: 0 <= i < |selectedIds| ==> selectedIds[i] == Visible()[i].id
      ensures checked ==> forall x :: x in selectedIds <==> exists t :: t in Visible() && t.id == x
      ensures !checked ==> selectedIds == []
      ensures allTickets == old(allTickets) && filters == old(filters)
    {
      if checked {
        var visible := Visible();
        selectedIds := Map(visible, (t: Ticket) => t.id);
        forall x | exists t :: t in visible && t.id == x
          ensures x in selectedIds
        {
          var t :| t in visible && t.id == x;
          var i :| 0 <= i < |visible| && visible[i] == t;
          assert selectedIds[i] == x;
        }
      } else {
        selectedIds := [];
      }
    }

    /** The bulk toolbar's "clear selection". */
    method ClearSelection()
      modifies this
      ensures selectedIds == [] && allTickets == old(allTickets) && filters == old(filters)
    {
      selectedIds := [];
    }

    /** Typing in the search box: the search criterion becomes the typed text. */
    method SetSearch(term: string)
      modifies this
      ensures filters == old(filters).(search := Some(term))
      ensures allTickets == old(allTickets) && selectedIds == old(selectedIds)
    {
      filters := filters.(search := Some(term));
    }

    /** Choosing a status; "all" clears the criterion (`null`). */
    method SetStatus(value: string)
      modifies this
      ensures filters == old(filters).(status := if value == "all" then None else Some(value))
      ensures allTickets == old(allTickets) && selectedIds == old(selectedIds)
    {
      filters := filters.(status := if value == "all" then None else Some(value));
    }

    /** Choosing a priority; "all" clears the criterion (`null`). */
    method SetPriority(value: string)
      modifies this
      ensures filters == old(filters).(priority := if value == "all" then None else Some(value))
      ensures allTickets == old(allTickets) && selectedIds == old(selectedIds)
    {
      filters := filters.(priority := if value == "all" then None else Some(value));
    }
  }

  /** Choosing "All Status" shows every ticket the other criteria let through. */
  lemma AllStatusClearsCriterion(f: Filters, t: Ticket)
    ensures Matches(f.(status := None), t) <==>
            PriorityOk(f, t) && CategoryOk(f, t) && AssigneeOk(f, t) && SearchOk(f, t) && DatesOk(f, t)
  {
    MatchesIffAll(f.(status := None), t);
  }
}
