/** The public store list endpoint (src/app/api/store-actors/route.ts): the
    upstream actor list filtered to public actors with an id, capped at 20,
    given default titles and descriptions, replaced by a fixed list of four
    well-known actors when nothing usable came back, and projected onto the
    fields the selector shows. */
module StoreActorsRoute {
  import opened Json

  /** An upstream item with the fields the route reads; a missing or `null`
      optional field is `None`. */
  datatype StoreActor = StoreActor(
    id: string,
    name: string,
    title: Option<string>,
    description: Option<string>,
    username: Option<string>,
    isPublic: Option<bool>)

  /** One entry of the response's `data` list. */
  datatype Entry = Entry(id: string, name: string, title: string, description: string, username: string)

  /** The parsed upstream body: `null` (reading `.data` from it throws), or
      an object whose `data.items` is an array (`Some`) or is missing or not
      an array (`None`). */
  datatype Body =
    | Unparsable(message: string)
    | NullBody
    | Parsed(items: Option<seq<StoreActor>>)

  /** How the upstream request ended: the request threw, or a response came
      back with its `ok` flag and its body. */
  datatype Upstream =
    | NetworkError(message: string)
    | Response(ok: bool, body: Body)

  datatype RouteResponse =
    | Ok200(data: seq<Entry>)
    | Error500(error: string)

  const MaxActors: nat := 20
  const NoDescription: string := "No description available"
  const DefaultUsername: string := "apify"
  /** The engine's message for reading `.data` from `null`. */
  const NullBodyError: string := "Cannot read properties of null (reading 'data')"

  /** `s || fallback` for an optional string. */
  function OrElse(s: Option<string>, fallback: string): (r: string)
    ensures s.Some? && s.value != "" ==> r == s.value
    ensures !(s.Some? && s.value != "") ==> r == fallback
  {
    if s.Some? && s.value != "" then s.value else fallback
  }

  /** `actor.isPublic && actor.id`. */
  predicate Survives(a: StoreActor) {
    a.isPublic == Some(true) && a.id != ""
  }

  /** The `filter` step: the surviving items, in upstream order. */
  function Survivors(items: seq<StoreActor>): (kept: seq<StoreActor>)
    ensures |kept| <= |items|
    ensures forall a :: a in kept <==> a in items && Survives(a)
  {
    if items == [] then []
    else if Survives(items[0]) then [items[0]] + Survivors(items[1..])
    else Survivors(items[1..])
  }

  /** Filtering a concatenation filters each part and keeps them in order:
      the survivors keep their upstream order. */
  lemma {:induction false} SurvivorsAppend(xs: seq<StoreActor>, ys: seq<StoreActor>)
    ensures Survivors(xs + ys) == Survivors(xs) + Survivors(ys)
  {
    if xs != [] {
      assert (xs + ys)[0] == xs[0];
      assert (xs + ys)[1..] == xs[1..] + ys;
      SurvivorsAppend(xs[1..], ys);
      if Survives(xs[0]) {
        calc {
          Survivors(xs + ys);
          [xs[0]] + Survivors(xs[1..] + ys);
          [xs[0]] + (Survivors(xs[1..]) + Survivors(ys));
          ([xs[0]] + Survivors(xs[1..])) + Survivors(ys);
        }
      }
    } else {
      assert xs + ys == ys;
    }
  }

  /** When every item survives, the filter keeps the list as it is. */
  lemma {:induction false} AllSurvive(items: seq<StoreActor>)
    requires forall a :: a in items ==> Survives(a)
    ensures Survivors(items) == items
  {
    if items != [] {
      AllSurvive(items[1..]);
    }
  }

  /** The `map` step after `slice(0, 20)`: defaults for the title and the
      description. */
  function Shape(a: StoreActor): (r: StoreActor)
    ensures r.id == a.id && r.name == a.name && r.username == a.username && r.isPublic == a.isPublic
    ensures r.title == Some(OrElse(a.title, a.name))
    ensures r.description == Some(OrElse(a.description, NoDescription))
  {
    a.(title := Some(OrElse(a.title, a.name)), description := Some(OrElse(a.description, NoDescription)))
  }

  /** `items.filter(...).slice(0, 20).map(...)`. */
  function Catalogue(items: seq<StoreActor>): (r: seq<StoreActor>)
    ensures |r| <= MaxActors
    ensures |r| == if |Survivors(items)| <= MaxActors then |Survivors(items)| else MaxActors
    ensures forall i :: 0 <= i < |r| ==> r[i] == Shape(Survivors(items)[i])
  {
    var kept := Survivors(items);
    var first := if |kept| <= MaxActors then kept else kept[..MaxActors];
    seq(|first|, i requires 0 <= i < |first| => Shape(first[i]))
  }

  function Known(id: string, name: string, title: string, description: string): (a: StoreActor) {
    StoreActor(id, name, Some(title), Some(description), Some("apify"), Some(true))
  }

  /** The list used when the upstream gave no usable actor. */
  const Fallback: seq<StoreActor> := [
    Known("apify/web-scraper", "web-scraper", "Web Scraper",
      "Crawls arbitrary websites using the Chrome browser and extracts data from pages using a provided JavaScript code. Perfect for scraping SPAs."),
    Known("apify/google-search-results-scraper", "google-search-results-scraper", "Google Search Results Scraper",
      "Scrape Google Search results for any keyword. Get organic results, ads, shopping results, and more. Fast and reliable."),
    Known("apify/cheerio-scraper", "cheerio-scraper", "Cheerio Scraper",
      "Fast and efficient web scraper using Cheerio for server-side HTML parsing. Ideal for simple websites."),
    Known("apify/puppeteer-scraper", "puppeteer-scraper", "Puppeteer Scraper",
      "Advanced web scraper using Puppeteer for complex JavaScript-heavy websites and SPAs.")
  ]

  /** The final `map` into the response: `id` falls back to
      `username/name`, `title` to the name, the description to the fixed
      text and the username to `apify`. The `id` fallback never fires in
      the route: survivors have a non-empty id, and so does every fallback
      actor. A missing username is written "undefined" there; a `null` one,
      which the template would write "null", is not told apart. */
  function Project(a: StoreActor): (e: Entry)
    ensures a.id != "" ==> e.id == a.id
    ensures a.id == "" ==> e.id == (if a.username.Some? then a.username.value else "undefined") + "/" + a.name
    ensures e.name == a.name
    ensures e.title == OrElse(a.title, a.name)
    ensures e.description == OrElse(a.description, NoDescription)
    ensures e.username == OrElse(a.username, DefaultUsername)
  {
    var username := match a.username case Some(u) => u case None => "undefined";
    Entry(
      if a.id != "" then a.id else username + "/" + a.name,
      a.name,
      OrElse(a.title, a.name),
      OrElse(a.description, NoDescription),
      OrElse(a.username, DefaultUsername))
  }

  /** The actors the upstream response yields before the fallback: none
      unless the response is ok and its body holds an item array. */
  function Fetched(up: Upstream): (r: seq<StoreActor>)
    requires up.Response? && !(up.ok && (up.body.Unparsable? || up.body.NullBody?))
  {
    if up.ok && up.body.items.Some? then Catalogue(up.body.items.value) else []
  }

  /** `GET`: a thrown error (the request, the body parse, or reading from a
      `null` body) answers 500 with its message; otherwise the fetched
      actors, or the fallback list when there are none, projected. */
  function Get(up: Upstream): (r: RouteResponse)
    ensures up.NetworkError? ==> r == Error500(up.message)
    ensures up.Response? && up.ok && up.body.Unparsable? ==> r == Error500(up.body.message)
    ensures up.Response? && up.ok && up.body.NullBody? ==> r == Error500(NullBodyError)
  {
    match up
    case NetworkError(message) => Error500(message)
    case Response(ok, body) =>
      if ok && body.Unparsable? then Error500(body.message)
      else if ok && body.NullBody? then Error500(NullBodyError)
      else
        var fetched := Fetched(up);
        var storeActors := if |fetched| == 0 then Fallback else fetched;
        Ok200(seq(|storeActors|, i requires 0 <= i < |storeActors| => Project(storeActors[i])))
  }

  /** The fallback response: the four fixed actors, in their listed order. */
  function FallbackEntries(): (es: seq<Entry>)
    ensures |es| == 4
    ensures es[0].id == "apify/web-scraper" && es[1].id == "apify/google-search-results-scraper"
    ensures es[2].id == "apify/cheerio-scraper" && es[3].id == "apify/puppeteer-scraper"
    ensures forall i :: 0 <= i < 4 ==> es[i].username == "apify"
  {
    seq(|Fallback|, i requires 0 <= i < |Fallback| => Project(Fallback[i]))
  }

  /** A response that is not ok, a body without an item array, or an array
      with no surviving item all give exactly the fallback list. */
  lemma NothingUsableGivesFallback(up: Upstream)
    requires up.Response?
    requires !up.ok || up.body.Parsed?
    requires !up.ok || up.body.items.None? || Survivors(up.body.items.value) == []
    ensures Get(up) == Ok200(FallbackEntries())
  {
  }

  /** Whenever some item survives, the response lists the first 20
      survivors in upstream order, each with its own id (the `username/name`
      fallback is never taken) and with the defaults filled in. */
  lemma SurvivorsAreListed(up: Upstream)
    requires up.Response? && up.ok && up.body.Parsed? && up.body.items.Some?
    requires Survivors(up.body.items.value) != []
    ensures Get(up).Ok200?
    ensures var kept := Survivors(up.body.items.value);
            var es := Get(up).data;
            && |es| == (if |kept| <= MaxActors then |kept| else MaxActors)
            && forall i :: 0 <= i < |es| ==>
                 && es[i].id == kept[i].id
                 && es[i].name == kept[i].name
                 && es[i].title == OrElse(kept[i].title, kept[i].name)
                 && es[i].description == OrElse(kept[i].description, NoDescription)
                 && es[i].username == OrElse(kept[i].username, DefaultUsername)
  {
    var kept := Survivors(up.body.items.value);
    var fetched := Fetched(up);
    assert |fetched| != 0;
    var es := Get(up).data;
    forall i | 0 <= i < |es|
      ensures es[i] == Project(Shape(kept[i])) && kept[i].id != ""
    {
      assert kept[i] in kept;
    }
  }

  /** Every answer that is not an error lists between 1 and 20 actors, each
      with a non-empty id. */
  lemma SuccessIsBounded(up: Upstream)
    requires Get(up).Ok200?
    ensures 1 <= |Get(up).data| <= MaxActors
    ensures forall i :: 0 <= i < |Get(up).data| ==> Get(up).data[i].id != ""
  {
    var fetched := Fetched(up);
    var es := Get(up).data;
    if |fetched| != 0 {
      var kept := Survivors(up.body.items.value);
      forall i | 0 <= i < |es|
        ensures es[i].id != ""
      {
        assert es[i] == Project(fetched[i]);
        assert kept[i] in kept;
      }
    } else {
      assert es == FallbackEntries();
    }
  }
}
