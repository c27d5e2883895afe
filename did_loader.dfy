/**
 * The DID document loader of the verification tests: it answers for one DID
 * document, serving either the whole document or one node plucked out of it
 * by flattening the document and framing the node whose `@id` is the
 * requested DID URL.
 */
module DidLoader {
  import opened Documents
  import opened DidUrl

  /** What the loader uses but does not define: the JSON-LD Flattening and
      Framing algorithms (the frame call always asks for `embed: '@always'`,
      and yields the `@graph` array of the framed result), and the two
      context URLs `DID_CONTEXT_URL` and `VERES_ONE_CONTEXT_URL`. */
  datatype Environment = Environment(
    flatten: Node -> seq<Node>,
    frame: (seq<Node>, Node) -> seq<Node>,
    didContextUrl: string,
    veresOneContextUrl: string)

  /** `[DID_CONTEXT_URL, VERES_ONE_CONTEXT_URL]` */
  function DidContext(env: Environment): Json
  {
    JArr([JStr(env.didContextUrl), JStr(env.veresOneContextUrl)])
  }

  /** The frame `{'@context': context, id: target}`. */
  function TargetFrame(env: Environment, target: string): Node
  {
    map["@context" := DidContext(env), "id" := JStr(target)]
  }

  /** `node['@id'] === target` */
  predicate HasId(node: Node, target: string)
  {
    "@id" in node && node["@id"] == JStr(target)
  }

  /** `record.id`, when it is a string (anything else never equals a DID). */
  function IdOf(record: Node): Option<string>
  {
    if "id" in record && record["id"].JStr? then Some(record["id"].s) else None
  }

  /** Position of the first node, in order, whose `@id` is `target`. */
  function FirstMatch(nodes: seq<Node>, target: string): (k: Option<nat>)
    ensures k.None? <==> forall j :: 0 <= j < |nodes| ==> !HasId(nodes[j], target)
    ensures k.Some? ==> k.value < |nodes| && HasId(nodes[k.value], target)
    ensures k.Some? ==> forall j :: 0 <= j < k.value ==> !HasId(nodes[j], target)
  {
    if nodes == [] then None
    else if HasId(nodes[0], target) then Some(0)
    else
      match FirstMatch(nodes[1..], target)
      case None => None
      case Some(k) => Some(k + 1)
  }

  /** `Object.assign({'@context': context}, graph[0])`: the context comes
      first and the framed node's own keys are applied over it; an empty
      graph leaves only the context. */
  function AssignContext(context: Json, graph: seq<Node>): (doc: Node)
    ensures doc.Keys == {"@context"} + (if graph == [] then {} else graph[0].Keys)
    ensures graph == [] || "@context" !in graph[0] ==> doc["@context"] == context
    ensures graph != [] ==> forall key :: key in graph[0] ==> doc[key] == graph[0][key]
  {
    map["@context" := context] + (if graph == [] then map[] else graph[0])
  }

  /** What `_pluckDidNode` resolves to: a 404 error when no flattened node has
      the target as `@id`, otherwise the framed first such node under the
      fixed context pair. */
  function Pluck(env: Environment, target: string, didDocument: Node): (r: Result<Node, LoadError>)
    ensures r.Failure? <==>
              forall j :: 0 <= j < |env.flatten(didDocument)| ==> !HasId(env.flatten(didDocument)[j], target)
    ensures r.Failure? ==> r.error == HttpNotFound(404, 404)
    ensures r.Success? ==> "@context" in r.value
  {
    var flattened := env.flatten(didDocument);
    match FirstMatch(flattened, target)
    case None => Failure(HttpNotFound(404, 404))
    case Some(k) => Success(AssignContext(DidContext(env), env.frame([flattened[k]], TargetFrame(env, target))))
  }

  /** `_pluckDidNode(did, target, didDocument)`; `did` is not used, as in
      the source. */
  method PluckDidNode(env: Environment, did: string, target: string, didDocument: Node)
    returns (r: Result<Node, LoadError>)
    ensures r == Pluck(env, target, didDocument)
  {
    var flattened := env.flatten(didDocument);
    var found := false;
    var filtered: seq<Node> := [];
    ghost var at := 0;
    var i := 0;
    while i < |flattened|
      invariant 0 <= i <= |flattened|
      invariant !found && filtered == []
      invariant forall j :: 0 <= j < i ==> !HasId(flattened[j], target)
    {
      var node := flattened[i];
      if HasId(node, target) {
        filtered := filtered + [node];
        found := true;
        at := i;
        break;
      }
      i := i + 1;
    }
    if !found {
      return Failure(HttpNotFound(404, 404));
    }
    assert at < |flattened| && filtered == [flattened[at]];
    assert FirstMatch(flattened, target) == Some(at);
    var context := DidContext(env);
    var framed := env.frame(filtered, TargetFrame(env, target));
    return Success(AssignContext(context, framed));
  }

  /** The function the DID document loader of `_createDidDocumentLoader`
      computes for its `record`. */
  function Resolve(env: Environment, record: Node, url: string): (r: Result<RemoteDocument, LoadError>)
    ensures !StartsWith(url, "did:") ==> r == Failure(NotFoundError)
    ensures StartsWith(url, "did:") && IdOf(record) != Some(DidOf(url)) ==> r == Failure(NotFoundError)
    ensures r.Success? <==>
              StartsWith(url, "did:") && IdOf(record) == Some(DidOf(url))
              && ('#' !in url || Pluck(env, url, record).Success?)
    ensures r.Success? ==> r.value.contextUrl.None? && r.value.documentUrl == url
    ensures r.Success? && '#' !in url ==> r.value.document == JObj(record)
    ensures r.Success? && '#' in url ==> r.value.document == JObj(Pluck(env, url, record).value)
    ensures r.Failure? ==> r.error == NotFoundError || ('#' in url && r.error == HttpNotFound(404, 404))
  {
    if !StartsWith(url, "did:") then Failure(NotFoundError)
    else if IdOf(record) != Some(DidOf(url)) then Failure(NotFoundError)
    else if '#' !in url then Success(RemoteDocument(None, JObj(record), url))
    else
      match Pluck(env, url, record)
      case Failure(e) => Failure(e)
      case Success(node) => Success(RemoteDocument(None, JObj(node), url))
  }

  /** The loader returned by `_createDidDocumentLoader({record})`, applied
      to `url`. `record` is a value: the loader works on its own copy
      (`jsonld.util.clone`) and the caller's record cannot change. Its
      branches are those of `Resolve`; it is the executable form, which
      plucks through the search loop of `PluckDidNode` rather than through
      the specification function `Pluck`. */
  method ResolveDidUrl(env: Environment, record: Node, url: string)
    returns (r: Result<RemoteDocument, LoadError>)
    ensures r == Resolve(env, record, url)
  {
    if !StartsWith(url, "did:") {
      return Failure(NotFoundError);
    }
    var did := Split(url)[0];
    if IdOf(record) != Some(did) {
      return Failure(NotFoundError);
    }
    var didDocument := record;
    if '#' !in url {
      return Success(RemoteDocument(None, JObj(didDocument), url));
    }
    var document := PluckDidNode(env, did, url, didDocument);
    match document
    case Failure(e) => return Failure(e);
    case Success(node) => return Success(RemoteDocument(None, JObj(node), url));
  }

  /** The first matching node is the one framed, whatever follows it. */
  lemma PluckFramesFirstMatch(env: Environment, target: string, didDocument: Node, k: nat)
    requires k < |env.flatten(didDocument)|
    requires HasId(env.flatten(didDocument)[k], target)
    requires forall j :: 0 <= j < k ==> !HasId(env.flatten(didDocument)[j], target)
    ensures Pluck(env, target, didDocument)
            == Success(AssignContext(DidContext(env),
                                     env.frame([env.flatten(didDocument)[k]], TargetFrame(env, target))))
  {
  }

  /** Nodes after the first match are never considered: two documents whose
      flattenings agree up to and including the first match pluck alike. */
  lemma PluckIgnoresLaterNodes(env: Environment, target: string, doc1: Node, doc2: Node, k: nat)
    requires k < |env.flatten(doc1)| && k < |env.flatten(doc2)|
    requires env.flatten(doc1)[..k + 1] == env.flatten(doc2)[..k + 1]
    requires HasId(env.flatten(doc1)[k], target)
    requires forall j :: 0 <= j < k ==> !HasId(env.flatten(doc1)[j], target)
    ensures Pluck(env, target, doc1) == Pluck(env, target, doc2)
  {
  }

  /** Unless the framed node carries its own `@context`, a plucked node is
      served under the fixed context pair, with every other key as framed. */
  lemma PluckedContext(env: Environment, target: string, didDocument: Node, k: nat)
    requires k < |env.flatten(didDocument)|
    requires HasId(env.flatten(didDocument)[k], target)
    requires forall j :: 0 <= j < k ==> !HasId(env.flatten(didDocument)[j], target)
    ensures var graph := env.frame([env.flatten(didDocument)[k]], TargetFrame(env, target));
            var r := Pluck(env, target, didDocument);
            && r.Success?
            && (graph == [] || "@context" !in graph[0] ==> r.value["@context"] == DidContext(env))
            && (graph != [] ==> forall key :: key in graph[0] ==> r.value[key] == graph[0][key])
  {
  }

  /** A DID followed by a `;`, `/`, `?` or `|` suffix without `#` is served
      the whole document. */
  lemma SuffixedDidServesWholeDocument(env: Environment, record: Node, did: string, suffix: string)
    requires StartsWith(did, "did:") && NoDelimiter(did)
    requires IdOf(record) == Some(did)
    requires suffix == [] || IsDelimiter(suffix[0])
    requires '#' !in suffix
    ensures Resolve(env, record, did + suffix) == Success(RemoteDocument(None, JObj(record), did + suffix))
  {
    var url := did + suffix;
    DidOfSuffixed(did, suffix);
    assert url[..4] == did[..4];
    assert forall i :: 0 <= i < |did| ==> url[i] == did[i] && url[i] != '#';
    assert forall i :: |did| <= i < |url| ==> url[i] == suffix[i - |did|];
  }

  /** A key id built from the loader's own (delimiter-free) DID passes the
      DID check and is answered by plucking. */
  lemma KeyIdIsPlucked(env: Environment, record: Node, did: string, fingerprint: string)
    requires StartsWith(did, "did:") && NoDelimiter(did)
    requires IdOf(record) == Some(did)
    ensures var url := KeyId(did, fingerprint);
            && (Resolve(env, record, url).Success? <==> Pluck(env, url, record).Success?)
            && (Resolve(env, record, url).Success? ==>
                  Resolve(env, record, url).value.document == JObj(Pluck(env, url, record).value))
            && (Resolve(env, record, url).Failure? ==>
                  Resolve(env, record, url).error == HttpNotFound(404, 404))
  {
    var url := KeyId(did, fingerprint);
    KeyIdRecoversDid(did, fingerprint);
    assert url[..4] == did[..4];
  }

  /** End to end for the test DIDs: a key id under a cryptonym DID resolves
      exactly when the flattened document holds a node with that id. */
  lemma CryptonymKeyResolves(env: Environment, record: Node, didFingerprint: string, keyFingerprint: string)
    requires IsBase58(didFingerprint)
    requires IdOf(record) == Some(CryptonymDid(didFingerprint))
    ensures var url := KeyId(CryptonymDid(didFingerprint), keyFingerprint);
            var nodes := env.flatten(record);
            Resolve(env, record, url).Success? <==> exists j :: 0 <= j < |nodes| && HasId(nodes[j], url)
  {
    KeyIdIsPlucked(env, record, CryptonymDid(didFingerprint), keyFingerprint);
  }
}
