/**
 * The test context loader: a shared registry of context documents keyed by
 * URL, filled with the real contexts and then with the invalid-context
 * fixtures, and a loader that looks URLs up in it.
 */
module ContextLoader {
  import opened Documents

  /** One entry `{url, value}` of the invalid-context fixtures. */
  datatype Fixture = Fixture(url: string, value: Json)

  /** The registry after `contexts[url] = value` for each fixture in turn. */
  function Installed(contexts: map<string, Json>, fixtures: seq<Fixture>): (m: map<string, Json>)
  {
    if fixtures == [] then contexts
    else
      var last := fixtures[|fixtures| - 1];
      Installed(contexts, fixtures[..|fixtures| - 1])[last.url := last.value]
  }

  /** The value of the last fixture registered for `url`, if any. */
  function LastFixtureValue(fixtures: seq<Fixture>, url: string): (v: Option<Json>)
    ensures v.None? <==> forall i :: 0 <= i < |fixtures| ==> fixtures[i].url != url
    ensures v.Some? ==> exists i :: 0 <= i < |fixtures| && fixtures[i] == Fixture(url, v.value)
                                   && forall j :: i < j < |fixtures| ==> fixtures[j].url != url
  {
    if fixtures == [] then None
    else
      var n := |fixtures| - 1;
      if fixtures[n].url == url then Some(fixtures[n].value)
      else
        var v := LastFixtureValue(fixtures[..n], url);
        assert forall i :: 0 <= i < n ==> fixtures[..n][i] == fixtures[i];
        v
  }

  /** Later fixtures overwrite earlier ones and the real contexts; a URL no
      fixture names keeps its real context, or stays absent. */
  lemma {:induction false} InstalledLookup(contexts: map<string, Json>, fixtures: seq<Fixture>, url: string)
    ensures url in Installed(contexts, fixtures) <==> url in contexts || LastFixtureValue(fixtures, url).Some?
    ensures LastFixtureValue(fixtures, url).Some? ==>
              Installed(contexts, fixtures)[url] == LastFixtureValue(fixtures, url).value
    ensures LastFixtureValue(fixtures, url).None? && url in contexts ==>
              Installed(contexts, fixtures)[url] == contexts[url]
  {
    if fixtures != [] {
      InstalledLookup(contexts, fixtures[..|fixtures| - 1], url);
    }
  }

  class ContextRegistry {
    /** The shared `contexts` object. */
    var contexts: map<string, Json>

    /** `Object.assign({}, realContexts)` */
    constructor (realContexts: map<string, Json>)
      ensures contexts == realContexts
    {
      contexts := realContexts;
    }

    /** The loop of `testContextLoader` that copies every fixture into the
        shared registry. */
    method InstallFixtures(fixtures: seq<Fixture>)
      modifies this
      ensures contexts == Installed(old(contexts), fixtures)
    {
      var i := 0;
      while i < |fixtures|
        invariant 0 <= i <= |fixtures|
        invariant contexts == Installed(old(contexts), fixtures[..i])
      {
        assert fixtures[..i + 1][..i] == fixtures[..i];
        contexts := contexts[fixtures[i].url := fixtures[i].value];
        i := i + 1;
      }
      assert fixtures[..|fixtures|] == fixtures;
    }

    /** The loader `testContextLoader` returns: a URL whose entry is missing or
        falsy is not found; otherwise a copy of the entry, with `documentUrl`
        the requested URL and no context URL. */
    function Load(url: string): (r: Result<RemoteDocument, LoadError>)
      reads this
      ensures r.Failure? <==> url !in contexts || !Truthy(contexts[url])
      ensures r.Failure? ==> r.error == NotFoundError
      ensures r.Success? ==> r.value.contextUrl.None? && r.value.documentUrl == url
      ensures r.Success? ==> r.value.document == contexts[url]
    {
      if url !in contexts || !Truthy(contexts[url]) then Failure(NotFoundError)
      else Success(RemoteDocument(None, contexts[url], url))
    }
  }

  /** After the fixtures are installed, a URL whose last fixture holds a falsy
      value (such as the `null` document) is not found, whatever the real
      contexts held for it; a truthy fixture value is what the loader serves. */
  lemma FixtureDecidesLoad(registry: ContextRegistry, realContexts: map<string, Json>,
                           fixtures: seq<Fixture>, url: string, v: Json)
    requires registry.contexts == Installed(realContexts, fixtures)
    requires LastFixtureValue(fixtures, url) == Some(v)
    ensures !Truthy(v) ==> registry.Load(url) == Failure(NotFoundError)
    ensures Truthy(v) ==> registry.Load(url) == Success(RemoteDocument(None, v, url))
  {
    InstalledLookup(realContexts, fixtures, url);
  }

  /** A URL no fixture names is served from the real contexts unchanged. */
  lemma RealContextSurvives(registry: ContextRegistry, realContexts: map<string, Json>,
                            fixtures: seq<Fixture>, url: string)
    requires registry.contexts == Installed(realContexts, fixtures)
    requires forall i :: 0 <= i < |fixtures| ==> fixtures[i].url != url
    ensures registry.Load(url).Success? <==> url in realContexts && Truthy(realContexts[url])
    ensures registry.Load(url).Success? ==> registry.Load(url).value.document == realContexts[url]
  {
    InstalledLookup(realContexts, fixtures, url);
  }
}
