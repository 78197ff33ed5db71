/**
 * The dashboard's filter engine: the visible list is the raw list passed
 * through a text search, a category filter and a status filter, in that
 * order, each stage skipped when its input is at its "everything" value.
 */
module Filters {
  import opened Wrappers
  import opened Text
  import opened Quejas
  import Seqs

  /** The sentinel value of both select filters that disables them. */
  const Todos := "todos"

  /** The three filter inputs: `searchTerm`, `filtroTipo`, `filtroEstatus`. */
  datatype FilterState = FilterState(searchTerm: string, filtroTipo: string, filtroEstatus: string)

  /** The filter inputs before the admin touches them. */
  const InitialFilters := FilterState("", Todos, Todos)

  /**
   * The search predicate: the lower-cased term occurs in the lower-cased
   * folio, or in the lower-cased tipo, or in a description that is present
   * and not empty. A missing description fails only its own disjunct.
   */
  predicate MatchesSearch(q: Queja, term: string)
    ensures term == "" ==> MatchesSearch(q, term)
  {
    var t := Lower(term);
    || Includes(Lower(q.folio), t)
    || Includes(Lower(q.tipo), t)
    || (q.description.Some? && q.description.value != "" && Includes(Lower(q.description.value), t))
  }

  /** Search stage: applied only when the term is not empty. */
  function SearchStage(quejas: seq<Queja>, term: string): (r: seq<Queja>)
    ensures term == "" ==> r == quejas
    ensures |r| <= |quejas|
  {
    if term != "" then Seqs.Filter((q: Queja) => MatchesSearch(q, term), quejas) else quejas
  }

  /** Category stage: keeps the records whose `tipo` is exactly the selected one. */
  function TipoStage(quejas: seq<Queja>, filtroTipo: string): (r: seq<Queja>)
    ensures filtroTipo == Todos ==> r == quejas
    ensures |r| <= |quejas|
  {
    if filtroTipo != Todos then Seqs.Filter((q: Queja) => q.tipo == filtroTipo, quejas) else quejas
  }

  /** Status stage: keeps the records whose `estatus` is exactly the selected one. */
  function EstatusStage(quejas: seq<Queja>, filtroEstatus: string): (r: seq<Queja>)
    ensures filtroEstatus == Todos ==> r == quejas
    ensures |r| <= |quejas|
  {
    if filtroEstatus != Todos then Seqs.Filter((q: Queja) => q.estatus == filtroEstatus, quejas) else quejas
  }

  /** The filter effect: `results` goes through the three stages in turn. */
  function Visible(quejas: seq<Queja>, f: FilterState): (r: seq<Queja>)
    ensures |r| <= |quejas|
  {
    EstatusStage(TipoStage(SearchStage(quejas, f.searchTerm), f.filtroTipo), f.filtroEstatus)
  }

  /** Each filter as a predicate on one record, true for everything when the filter is off. */
  predicate PassesSearch(q: Queja, term: string) { term == "" || MatchesSearch(q, term) }
  predicate PassesTipo(q: Queja, filtroTipo: string) { filtroTipo == Todos || q.tipo == filtroTipo }
  predicate PassesEstatus(q: Queja, filtroEstatus: string) { filtroEstatus == Todos || q.estatus == filtroEstatus }

  /** The reference definition: a record is visible when it passes all three filters. */
  predicate Passes(q: Queja, f: FilterState) {
    PassesSearch(q, f.searchTerm) && PassesTipo(q, f.filtroTipo) && PassesEstatus(q, f.filtroEstatus)
  }

  /** Each stage is a filter by its own predicate; a disabled stage is the identity. */
  lemma StagesAreFilters(quejas: seq<Queja>, f: FilterState)
    ensures SearchStage(quejas, f.searchTerm) == Seqs.Filter((q: Queja) => PassesSearch(q, f.searchTerm), quejas)
    ensures TipoStage(quejas, f.filtroTipo) == Seqs.Filter((q: Queja) => PassesTipo(q, f.filtroTipo), quejas)
    ensures EstatusStage(quejas, f.filtroEstatus) == Seqs.Filter((q: Queja) => PassesEstatus(q, f.filtroEstatus), quejas)
  {
    if f.searchTerm == "" {
      Seqs.FilterKeepsAll((q: Queja) => PassesSearch(q, f.searchTerm), quejas);
    } else {
      Seqs.FilterExtensional((q: Queja) => MatchesSearch(q, f.searchTerm), (q: Queja) => PassesSearch(q, f.searchTerm), quejas);
    }
    if f.filtroTipo == Todos {
      Seqs.FilterKeepsAll((q: Queja) => PassesTipo(q, f.filtroTipo), quejas);
    } else {
      Seqs.FilterExtensional((q: Queja) => q.tipo == f.filtroTipo, (q: Queja) => PassesTipo(q, f.filtroTipo), quejas);
    }
    if f.filtroEstatus == Todos {
      Seqs.FilterKeepsAll((q: Queja) => PassesEstatus(q, f.filtroEstatus), quejas);
    } else {
      Seqs.FilterExtensional((q: Queja) => q.estatus == f.filtroEstatus, (q: Queja) => PassesEstatus(q, f.filtroEstatus), quejas);
    }
  }

  /** The visible list is the raw list filtered by the conjunction of the three predicates. */
  lemma VisibleIsConjunction(quejas: seq<Queja>, f: FilterState)
    ensures Visible(quejas, f) == Seqs.Filter((q: Queja) => Passes(q, f), quejas)
  {
    var ps := (q: Queja) => PassesSearch(q, f.searchTerm);
    var pt := (q: Queja) => PassesTipo(q, f.filtroTipo);
    var pe := (q: Queja) => PassesEstatus(q, f.filtroEstatus);
    var pst := (q: Queja) => ps(q) && pt(q);
    var s1 := SearchStage(quejas, f.searchTerm);
    var s2 := TipoStage(s1, f.filtroTipo);
    StagesAreFilters(quejas, f);
    StagesAreFilters(s1, f);
    StagesAreFilters(s2, f);
    Seqs.FilterFilter(ps, pt, pst, quejas);
    Seqs.FilterFilter(pst, pe, (q: Queja) => Passes(q, f), quejas);
  }

  /** A record is visible exactly when it is in the raw list and passes every filter. */
  lemma VisibleMembership(quejas: seq<Queja>, f: FilterState, q: Queja)
    ensures q in Visible(quejas, f) <==> q in quejas && Passes(q, f)
  {
    VisibleIsConjunction(quejas, f);
    Seqs.FilterMembership((q: Queja) => Passes(q, f), quejas);
    var r := Visible(quejas, f);
    if q in quejas && Passes(q, f) {
      var i :| 0 <= i < |quejas| && quejas[i] == q;
    }
    if q in r {
      var i :| 0 <= i < |r| && r[i] == q;
    }
  }

  /** The visible list is a subsequence of the raw list: nothing is invented, the order is kept. */
  lemma VisibleIsSubsequence(quejas: seq<Queja>, f: FilterState)
    ensures Seqs.IsSubsequence(Visible(quejas, f), quejas)
  {
    VisibleIsConjunction(quejas, f);
    Seqs.FilterIsSubsequence((q: Queja) => Passes(q, f), quejas);
  }

  /** The three stages may be applied in any order: all six orders give the same list. */
  lemma StageOrderIrrelevant(quejas: seq<Queja>, f: FilterState)
    ensures var v := Visible(quejas, f);
      var (s, t, e) := (f.searchTerm, f.filtroTipo, f.filtroEstatus);
      && v == TipoStage(EstatusStage(SearchStage(quejas, s), e), t)
      && v == EstatusStage(SearchStage(TipoStage(quejas, t), s), e)
      && v == SearchStage(EstatusStage(TipoStage(quejas, t), e), s)
      && v == TipoStage(SearchStage(EstatusStage(quejas, e), s), t)
      && v == SearchStage(TipoStage(EstatusStage(quejas, e), t), s)
  {
    var ps := (q: Queja) => PassesSearch(q, f.searchTerm);
    var pt := (q: Queja) => PassesTipo(q, f.filtroTipo);
    var pe := (q: Queja) => PassesEstatus(q, f.filtroEstatus);
    var all := (q: Queja) => Passes(q, f);
    VisibleIsConjunction(quejas, f);
    // every stage is a filter, on whatever list it receives
    forall l: seq<Queja>
      ensures SearchStage(l, f.searchTerm) == Seqs.Filter(ps, l)
      ensures TipoStage(l, f.filtroTipo) == Seqs.Filter(pt, l)
      ensures EstatusStage(l, f.filtroEstatus) == Seqs.Filter(pe, l)
    {
      StagesAreFilters(l, f);
    }
    ThreeFiltersAnyOrder(ps, pt, pe, all, quejas);
  }

  /** Three successive filters in any order equal one filter by their conjunction. */
  lemma ThreeFiltersAnyOrder<T>(a: T -> bool, b: T -> bool, c: T -> bool, abc: T -> bool, s: seq<T>)
    requires forall x :: abc(x) == (a(x) && b(x) && c(x))
    ensures Seqs.Filter(b, Seqs.Filter(c, Seqs.Filter(a, s))) == Seqs.Filter(abc, s)
    ensures Seqs.Filter(c, Seqs.Filter(a, Seqs.Filter(b, s))) == Seqs.Filter(abc, s)
    ensures Seqs.Filter(a, Seqs.Filter(c, Seqs.Filter(b, s))) == Seqs.Filter(abc, s)
    ensures Seqs.Filter(b, Seqs.Filter(a, Seqs.Filter(c, s))) == Seqs.Filter(abc, s)
    ensures Seqs.Filter(a, Seqs.Filter(b, Seqs.Filter(c, s))) == Seqs.Filter(abc, s)
  {
    var ab := x => a(x) && b(x);
    var ac := x => a(x) && c(x);
    var bc := x => b(x) && c(x);
    Seqs.FilterFilter(a, c, ac, s);
    Seqs.FilterFilter(ac, b, abc, s);
    Seqs.FilterFilter(b, a, ab, s);
    Seqs.FilterFilter(ab, c, abc, s);
    Seqs.FilterFilter(b, c, bc, s);
    Seqs.FilterFilter(bc, a, abc, s);
    Seqs.FilterFilter(c, a, ac, s);
    Seqs.FilterFilter(ac, b, abc, s);
    Seqs.FilterFilter(c, b, bc, s);
    Seqs.FilterFilter(bc, a, abc, s);
  }

  /** An empty search term applies no text predicate. */
  lemma EmptySearchIsIdentity(quejas: seq<Queja>)
    ensures SearchStage(quejas, "") == quejas
  {
  }

  /** `'todos'` in a select filter leaves the list unchanged. */
  lemma TodosIsIdentity(quejas: seq<Queja>)
    ensures TipoStage(quejas, Todos) == quejas
    ensures EstatusStage(quejas, Todos) == quejas
  {
  }

  /** Any other category keeps exactly the records with that `tipo`. */
  lemma TipoStageExact(quejas: seq<Queja>, filtroTipo: string, q: Queja)
    requires filtroTipo != Todos
    ensures q in TipoStage(quejas, filtroTipo) <==> q in quejas && q.tipo == filtroTipo
  {
    Seqs.FilterMembership((q: Queja) => q.tipo == filtroTipo, quejas);
    if q in quejas && q.tipo == filtroTipo {
      var i :| 0 <= i < |quejas| && quejas[i] == q;
    }
    var r := TipoStage(quejas, filtroTipo);
    if q in r {
      var i :| 0 <= i < |r| && r[i] == q;
    }
  }

  /** Any other status keeps exactly the records with that `estatus`. */
  lemma EstatusStageExact(quejas: seq<Queja>, filtroEstatus: string, q: Queja)
    requires filtroEstatus != Todos
    ensures q in EstatusStage(quejas, filtroEstatus) <==> q in quejas && q.estatus == filtroEstatus
  {
    Seqs.FilterMembership((q: Queja) => q.estatus == filtroEstatus, quejas);
    if q in quejas && q.estatus == filtroEstatus {
      var i :| 0 <= i < |quejas| && quejas[i] == q;
    }
    var r := EstatusStage(quejas, filtroEstatus);
    if q in r {
      var i :| 0 <= i < |r| && r[i] == q;
    }
  }

  /** With the initial filter inputs every record is visible. */
  lemma InitialFiltersShowAll(quejas: seq<Queja>)
    ensures Visible(quejas, InitialFilters) == quejas
  {
  }

  /** The search ignores letter case: a term and its lower-cased form select the same records. */
  lemma SearchIgnoresCase(q: Queja, term: string)
    ensures MatchesSearch(q, term) == MatchesSearch(q, Lower(term))
  {
    LowerIdempotent(term);
  }

  /** A record passes the search iff the lower-cased term occurs in one of its three searched fields. */
  lemma MatchesSearchIff(q: Queja, term: string)
    ensures MatchesSearch(q, term) <==>
      || IsSubstring(Lower(term), Lower(q.folio))
      || IsSubstring(Lower(term), Lower(q.tipo))
      || (q.description.Some? && q.description.value != "" && IsSubstring(Lower(term), Lower(q.description.value)))
  {
    IncludesIffSubstring(Lower(q.folio), Lower(term));
    IncludesIffSubstring(Lower(q.tipo), Lower(term));
    if q.description.Some? {
      IncludesIffSubstring(Lower(q.description.value), Lower(term));
    }
  }

  /** Searching "RECI" finds a record whose `tipo` is "Recibida". */
  lemma SearchExample(q: Queja)
    requires q.tipo == "Recibida"
    ensures MatchesSearch(q, "RECI")
  {
    var t, h := Lower("RECI"), Lower(q.tipo);
    assert LowerChar('R') == 'r' && LowerChar('E') == 'e' && LowerChar('C') == 'c' && LowerChar('I') == 'i';
    assert t[0] == 'r' && t[1] == 'e' && t[2] == 'c' && t[3] == 'i';
    assert h[0] == 'r' && h[1] == 'e' && h[2] == 'c' && h[3] == 'i';
    assert t <= h;
  }
}
