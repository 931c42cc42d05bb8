/** The actor list screen (src/components/ActorSelector.tsx): the search
    filter, the relevance score, the two-key sort, and the choice of the
    endpoint the actor list is fetched from. */
module Selector {
  import opened Json
  import opened Text
  import opened Apify

  datatype SortKey = ByName | ByTitle | ByRecent
  datatype View = My | Store

  // ---------------------------------------------------------------------
  // the filter

  /** An actor is kept when the lowercased term occurs in its lowercased
      name, title or description. */
  predicate Matches(a: Actor, term: string) {
    var t := ToLower(term);
    Contains(ToLower(a.name), t) || Contains(ToLower(a.title), t) || Contains(ToLower(a.description), t)
  }

  /** `actors.filter(...)`: each actor is kept, as often as it occurs, exactly
      when it matches; nothing else is added. */
  function Filter(actors: seq<Actor>, term: string): (kept: seq<Actor>)
    ensures |kept| <= |actors|
    ensures forall a :: multiset(kept)[a] == if Matches(a, term) then multiset(actors)[a] else 0
  {
    if actors == [] then []
    else
      assert actors == [actors[0]] + actors[1..];
      if Matches(actors[0], term) then [actors[0]] + Filter(actors[1..], term)
      else Filter(actors[1..], term)
  }

  /** An empty search term keeps every actor, in order. */
  lemma {:induction false} EmptyTermKeepsAll(actors: seq<Actor>)
    ensures Filter(actors, "") == actors
  {
    if actors != [] {
      assert ToLower("") == "";
      assert Matches(actors[0], "");
      EmptyTermKeepsAll(actors[1..]);
    }
  }

  // ---------------------------------------------------------------------
  // relevance

  /** `getRelevanceScore`: the first tier the actor reaches, comparing
      lowercased strings: exact title 1000, exact name 900, title prefix
      800, name prefix 700, title substring 600, name substring 500,
      description substring 100, otherwise 0. */
  function RelevanceScore(a: Actor, term: string): (score: int)
    ensures score in {0, 100, 500, 600, 700, 800, 900, 1000}
    ensures var s, title, name := ToLower(term), ToLower(a.title), ToLower(a.name);
      && (title == s <==> score == 1000)
      && (title != s && name == s <==> score == 900)
      && (title != s && name != s && StartsWith(title, s) <==> score == 800)
      && (title != s && name != s && !StartsWith(title, s) && StartsWith(name, s) <==> score == 700)
      && (!StartsWith(title, s) && !StartsWith(name, s) && Contains(title, s) <==> score == 600)
      && (!StartsWith(title, s) && !StartsWith(name, s) && !Contains(title, s) && Contains(name, s)
          <==> score == 500)
      && (!Contains(title, s) && !Contains(name, s) && Contains(ToLower(a.description), s) <==> score == 100)
  {
    var s := ToLower(term);
    var title := ToLower(a.title);
    var name := ToLower(a.name);
    var desc := ToLower(a.description);
    if title == s then 1000
    else if name == s then 900
    else if StartsWith(title, s) then 800
    else if StartsWith(name, s) then 700
    else if Contains(title, s) then 600
    else if Contains(name, s) then 500
    else if Contains(desc, s) then 100
    else 0
  }

  /** Every actor the filter keeps scores at least 100, and every actor it
      drops scores 0: the score is positive exactly when the actor matches. */
  lemma ScorePositiveIffMatches(a: Actor, term: string)
    ensures Matches(a, term) <==> RelevanceScore(a, term) >= 100
    ensures !Matches(a, term) <==> RelevanceScore(a, term) == 0
  {
    var s := ToLower(term);
    PrefixIsContained(ToLower(a.title), s);
    PrefixIsContained(ToLower(a.name), s);
  }

  /** A match on the title outranks the same kind of match on the name, and
      any title or name match outranks a match on the description alone. */
  lemma TitleOutranksName(a: Actor, b: Actor, term: string)
    ensures ToLower(a.title) == ToLower(term) && ToLower(b.title) != ToLower(term)
            ==> RelevanceScore(a, term) > RelevanceScore(b, term)
    ensures (Contains(ToLower(a.title), ToLower(term)) || Contains(ToLower(a.name), ToLower(term)))
            && !Contains(ToLower(b.title), ToLower(term)) && !Contains(ToLower(b.name), ToLower(term))
            ==> RelevanceScore(a, term) > RelevanceScore(b, term)
  {
    var s := ToLower(term);
    PrefixIsContained(ToLower(a.title), s);
    PrefixIsContained(ToLower(a.name), s);
    PrefixIsContained(ToLower(b.title), s);
    PrefixIsContained(ToLower(b.name), s);
  }

  // ---------------------------------------------------------------------
  // the comparator

  /** The string the secondary sort compares: the title for 'title', the
      name for 'name' and for 'recent'. */
  function SortField(a: Actor, order: SortKey): (field: string) {
    match order
    case ByTitle => a.title
    case ByName => a.name
    case ByRecent => a.name
  }

  /** `localeCompare`, with character-code order standing in for the
      locale's collation. */
  function LocaleCompare(x: string, y: string): (c: int)
    ensures c == 0 <==> x == y
    ensures c < 0 <==> x != y && LexLeq(x, y)
  {
    if x == y then 0 else if LexLeq(x, y) then -1 else 1
  }

  /** The comparator handed to `sort`: with a non-blank term, the higher
      score first (`scoreB - scoreA`), and equal scores by the sort field;
      without one, by the sort field alone. */
  function Compare(a: Actor, b: Actor, term: string, order: SortKey): (c: int)
    ensures Trim(term) != "" && RelevanceScore(a, term) > RelevanceScore(b, term) ==> c < 0
    ensures Trim(term) != "" && RelevanceScore(a, term) < RelevanceScore(b, term) ==> c > 0
    ensures Trim(term) == "" || RelevanceScore(a, term) == RelevanceScore(b, term) ==>
      && (c == 0 <==> SortField(a, order) == SortField(b, order))
      && (c < 0 <==> SortField(a, order) != SortField(b, order) && LexLeq(SortField(a, order), SortField(b, order)))
  {
    if Trim(term) != "" && RelevanceScore(a, term) != RelevanceScore(b, term) then
      RelevanceScore(b, term) - RelevanceScore(a, term)
    else LocaleCompare(SortField(a, order), SortField(b, order))
  }

  /** `a` may stand before `b`. */
  predicate Precedes(a: Actor, b: Actor, term: string, order: SortKey) {
    Compare(a, b, term, order) <= 0
  }

  lemma PrecedesTotal(a: Actor, b: Actor, term: string, order: SortKey)
    ensures Precedes(a, b, term, order) || Precedes(b, a, term, order)
  {
    LexLeqTotal(SortField(a, order), SortField(b, order));
  }

  lemma PrecedesTransitive(a: Actor, b: Actor, c: Actor, term: string, order: SortKey)
    requires Precedes(a, b, term, order) && Precedes(b, c, term, order)
    ensures Precedes(a, c, term, order)
  {
    var fa, fb, fc := SortField(a, order), SortField(b, order), SortField(c, order);
    if LexLeq(fa, fb) && LexLeq(fb, fc) {
      LexLeqTransitive(fa, fb, fc);
      if fa == fc {
        LexLeqAntisymmetric(fa, fb);
      }
    }
  }

  ghost predicate Sorted(s: seq<Actor>, term: string, order: SortKey) {
    forall i, j :: 0 <= i < j < |s| ==> Precedes(s[i], s[j], term, order)
  }

  /** What a sorted list means for the user: with a non-blank term the
      scores never increase down the list and equal scores are in sort-field
      order; without one the whole list is in sort-field order. */
  lemma SortedMeaning(s: seq<Actor>, term: string, order: SortKey, i: int, j: int)
    requires Sorted(s, term, order)
    requires 0 <= i < j < |s|
    ensures Trim(term) != "" ==> RelevanceScore(s[i], term) >= RelevanceScore(s[j], term)
    ensures Trim(term) != "" && RelevanceScore(s[i], term) == RelevanceScore(s[j], term)
            ==> LexLeq(SortField(s[i], order), SortField(s[j], order))
    ensures Trim(term) == "" ==> LexLeq(SortField(s[i], order), SortField(s[j], order))
  {
    assert Precedes(s[i], s[j], term, order);
    LexLeqReflexive(SortField(s[i], order));
  }

  /** `s[..i + 1]` is sorted except for the element at `j`, which precedes
      everything after it up to `i`: the state of one insertion pass. */
  ghost predicate InsertingAt(s: seq<Actor>, i: int, j: int, term: string, order: SortKey)
    requires 0 <= j <= i < |s|
  {
    && (forall k, l :: 0 <= k < l <= i && k != j && l != j ==> Precedes(s[k], s[l], term, order))
    && (forall l :: j < l <= i ==> Precedes(s[j], s[l], term, order))
  }

  /** Swapping the element at `j` with its out-of-order left neighbour keeps
      the pass invariant, one position further left. */
  lemma InsertStep(s: seq<Actor>, i: int, j: int, term: string, order: SortKey)
    requires 0 < j <= i < |s|
    requires InsertingAt(s, i, j, term, order)
    requires !Precedes(s[j - 1], s[j], term, order)
    ensures InsertingAt(s[j - 1 := s[j]][j := s[j - 1]], i, j - 1, term, order)
  {
    PrecedesTotal(s[j - 1], s[j], term, order);
  }

  /** When the element at `j` may stand after its left neighbour, the pass is
      over: `s[..i + 1]` is sorted. */
  lemma InsertDone(s: seq<Actor>, i: int, j: int, term: string, order: SortKey)
    requires 0 <= j <= i < |s|
    requires InsertingAt(s, i, j, term, order)
    requires j > 0 ==> Precedes(s[j - 1], s[j], term, order)
    ensures forall k, l :: 0 <= k < l <= i ==> Precedes(s[k], s[l], term, order)
  {
    forall k | 0 <= k < j
      ensures Precedes(s[k], s[j], term, order)
    {
      if k < j - 1 {
        PrecedesTransitive(s[k], s[j - 1], s[j], term, order);
      }
    }
  }

  /** One pass of the insertion sort: the element at `i` moves down past
      every element it must precede, leaving `a[..i + 1]` sorted. */
  method InsertAt(a: array<Actor>, i: int, term: string, order: SortKey)
    requires 0 <= i < a.Length
    requires forall k, l :: 0 <= k < l < i ==> Precedes(a[k], a[l], term, order)
    modifies a
    ensures forall k, l :: 0 <= k < l <= i ==> Precedes(a[k], a[l], term, order)
    ensures multiset(a[..]) == multiset(old(a[..]))
  {
    var j := i;
    while j > 0 && !Precedes(a[j - 1], a[j], term, order)
      invariant 0 <= j <= i
      invariant InsertingAt(a[..], i, j, term, order)
      invariant multiset(a[..]) == multiset(old(a[..]))
    {
      InsertStep(a[..], i, j, term, order);
      ghost var before := a[..];
      a[j - 1], a[j] := a[j], a[j - 1];
      assert a[..] == before[j - 1 := before[j]][j := before[j - 1]];
      j := j - 1;
    }
    InsertDone(a[..], i, j, term, order);
  }

  /** `filtered.sort(comparator)`, in place (an insertion sort, which is
      stable like the engine's sort): the array ends sorted by the
      comparator and holds the same actors. */
  method SortActors(a: array<Actor>, term: string, order: SortKey)
    modifies a
    ensures Sorted(a[..], term, order)
    ensures multiset(a[..]) == multiset(old(a[..]))
  {
    var i := 0;
    while i < a.Length
      invariant 0 <= i <= a.Length
      invariant forall k, l :: 0 <= k < l < i ==> Precedes(a[k], a[l], term, order)
      invariant multiset(a[..]) == multiset(old(a[..]))
    {
      InsertAt(a, i, term, order);
      i := i + 1;
    }
  }

  // ---------------------------------------------------------------------
  // fetching the list

  /** A request to the application's own API: a path and, when it is sent,
      the token header. */
  datatype Request = Request(path: string, token: Option<string>)

  /** The endpoint `fetchActors` calls: the caller's own actors with the
      token, or the public store list without it. */
  function ActorsRequest(view: View, apiKey: string): (r: Request)
    ensures view == My ==> r == Request("/api/actors", Some(apiKey))
    ensures view == Store ==> r == Request("/api/store-actors", None)
  {
    match view
    case My => Request("/api/actors", Some(apiKey))
    case Store => Request("/api/store-actors", None)
  }

  /** How a fetch of the list ended: the request or the body parse threw, or
      a response arrived with its `ok` flag, its `error` text ("" when
      absent) and its actor list. */
  datatype FetchOutcome =
    | Rejected(message: string)
    | Responded(ok: bool, errorText: string, data: seq<Actor>)

  const FetchFailed: string := "Failed to fetch actors"

  /** `shown` is the actors that match `term`, sorted by the comparator. */
  ghost predicate Shows(shown: seq<Actor>, actors: seq<Actor>, term: string, order: SortKey) {
    && Sorted(shown, term, order)
    && multiset(shown) == multiset(Filter(actors, term))
  }

  class ActorSelector {
    const apiKey: string
    var actors: seq<Actor>
    var filteredActors: seq<Actor>
    var loading: bool
    var error: string
    var searchTerm: string
    var view: View
    var sortBy: SortKey

    /** The shown list is the filtered list, sorted. */
    ghost predicate Valid()
      reads this
    {
      Shows(filteredActors, actors, searchTerm, sortBy)
    }

    constructor (apiKey: string)
      ensures Valid()
      ensures this.apiKey == apiKey
      ensures actors == [] && filteredActors == [] && loading && error == ""
      ensures searchTerm == "" && view == My && sortBy == ByTitle
    {
      this.apiKey := apiKey;
      actors := [];
      filteredActors := [];
      loading := true;
      error := "";
      searchTerm := "";
      view := My;
      sortBy := ByTitle;
    }

    /** The shown list never holds more actors than were fetched. */
    lemma ShownWithinFetched()
      requires Valid()
      ensures |filteredActors| <= |actors|
    {
      assert |multiset(filteredActors)| == |multiset(Filter(actors, searchTerm))|;
    }

    /** The effect on `[actors, searchTerm, sortBy]`: filter, sort in place,
        and store the result. */
    method Refilter()
      modifies this`filteredActors
      ensures Valid()
    {
      var filtered := Filter(actors, searchTerm);
      var arr := new Actor[|filtered|](i requires 0 <= i < |filtered| => filtered[i]);
      assert arr[..] == filtered;
      SortActors(arr, searchTerm, sortBy);
      filteredActors := arr[..];
    }

    method SetSearchTerm(term: string)
      modifies this`searchTerm, this`filteredActors
      ensures Valid()
      ensures searchTerm == term
    {
      searchTerm := term;
      Refilter();
    }

    method SetSortBy(order: SortKey)
      modifies this`sortBy, this`filteredActors
      ensures Valid()
      ensures sortBy == order
    {
      sortBy := order;
      Refilter();
    }

    /** The start of `fetchActors`, run when the view changes: loading, no
        error, and the request for the current view. */
    method BeginFetch(v: View) returns (req: Request)
      modifies this`view, this`loading, this`error
      ensures view == v && loading && error == ""
      ensures req == ActorsRequest(v, apiKey)
      ensures actors == old(actors) && filteredActors == old(filteredActors)
    {
      view := v;
      loading := true;
      error := "";
      req := ActorsRequest(view, apiKey);
    }

    /** The end of `fetchActors`: a rejection or an error response sets the
        error message and keeps the list; a good response replaces the list
        (and the filter effect reruns); loading ends either way. */
    method FinishFetch(outcome: FetchOutcome)
      requires Valid()
      modifies this`actors, this`error, this`loading, this`filteredActors
      ensures Valid()
      ensures !loading
      ensures outcome.Rejected? ==>
        error == outcome.message && actors == old(actors) && filteredActors == old(filteredActors)
      ensures outcome.Responded? && !outcome.ok ==>
        error == (if outcome.errorText != "" then outcome.errorText else FetchFailed)
        && actors == old(actors) && filteredActors == old(filteredActors)
      ensures outcome.Responded? && outcome.ok ==> actors == outcome.data && error == old(error)
    {
      match outcome {
        case Rejected(message) =>
          error := message;
        case Responded(ok, errorText, data) =>
          if !ok {
            error := if errorText != "" then errorText else FetchFailed;
          } else {
            actors := data;
            Refilter();
          }
      }
      loading := false;
    }
  }
}
