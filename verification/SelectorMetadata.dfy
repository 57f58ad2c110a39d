/** The selector's metadata, filled by loops over maps in whatever order they enumerate. */
module SelectorMetadata {
  import opened Wrappers

  const PREFIX := "selector-meta-"

  datatype Options = Options(
    sourceServiceName: string,
    sourceNamespace: string,
    sourceEnvName: string,
    destinationEnvName: string,
    sourceMetadata: map<string, string>,
    destinationMetadata: map<string, string>,
    disableServiceRouter: bool,
    // The server metadata of the call's context; none without a context.
    serverMetadata: Option<map<string, string>>
  )

  type Entry = (string, string)

  // One order in which a loop may visit the entries of a map.
  predicate Enumerates(entries: seq<Entry>, m: map<string, string>) {
    && (forall e <- entries :: e.0 in m && m[e.0] == e.1)
    && (forall k <- m :: (k, m[k]) in entries)
    && (forall i, j :: 0 <= i < j < |entries| ==> entries[i].0 != entries[j].0)
  }

  // A map that several functions fill in place.
  class Labels {
    var labels: map<string, string>

    constructor ()
      ensures labels == map[]
    {
      labels := map[];
    }
  }

  predicate Transferred(e: Entry) {
    PREFIX <= e.0
  }

  function Trimmed(key: string): string
    requires PREFIX <= key
  {
    key[|PREFIX|..]
  }

  predicate Proper(e: Entry) {
    e.0 != "" && e.1 != ""
  }

  // The two kinds of loop, as folds over the entries visited.
  function Transfer(entries: seq<Entry>, labels: map<string, string>): map<string, string> {
    if entries == [] then labels
    else
      var e := entries[|entries| - 1];
      var before := Transfer(entries[..|entries| - 1], labels);
      if Transferred(e) then before[Trimmed(e.0) := e.1] else before
  }

  function Copy(entries: seq<Entry>, labels: map<string, string>): map<string, string> {
    if entries == [] then labels
    else
      var e := entries[|entries| - 1];
      var before := Copy(entries[..|entries| - 1], labels);
      if Proper(e) then before[e.0 := e.1] else before
  }

  method SetTransSelectorMeta(server: Option<seq<Entry>>, selectorMeta: Labels)
    modifies selectorMeta
    ensures selectorMeta.labels
            == if server.Some? then Transfer(server.value, old(selectorMeta.labels)) else old(selectorMeta.labels)
  {
    if server.None? {
      return;
    }
    var entries := server.value;
    for i := 0 to |entries|
      invariant selectorMeta.labels == Transfer(entries[..i], old(selectorMeta.labels))
    {
      assert entries[..i + 1][..i] == entries[..i];
      var (k, v) := entries[i];
      if PREFIX <= k {
        selectorMeta.labels := selectorMeta.labels[k[|PREFIX|..] := v];
      }
    }
    assert entries[..|entries|] == entries;
  }

  method CopyLabels(entries: seq<Entry>, target: Labels)
    modifies target
    ensures target.labels == Copy(entries, old(target.labels))
  {
    for i := 0 to |entries|
      invariant target.labels == Copy(entries[..i], old(target.labels))
    {
      assert entries[..i + 1][..i] == entries[..i];
      var (key, value) := entries[i];
      if |key| > 0 && |value| > 0 {
        target.labels := target.labels[key := value];
      }
    }
    assert entries[..|entries|] == entries;
  }

  function EnvLabel(env: string): map<string, string> {
    if env == "" then map[] else map["env" := env]
  }

  // getMetadata, visiting the server's entries and the caller's in the given orders.
  method GetMetadata(opts: Options, enableTransMeta: bool, server: Option<seq<Entry>>, source: seq<Entry>)
    returns (metadata: map<string, string>)
    requires server.Some? <==> opts.serverMetadata.Some?
    requires server.Some? ==> Enumerates(server.value, opts.serverMetadata.value)
    requires Enumerates(source, opts.sourceMetadata)
    ensures forall k :: Lookup(metadata, k) == SourceLabel(opts, enableTransMeta, k)
    ensures forall k <- opts.sourceMetadata ::
              k != "" && opts.sourceMetadata[k] != "" ==> Lookup(metadata, k) == Some(opts.sourceMetadata[k])
    ensures forall k :: (k in opts.sourceMetadata && k != "" ==> opts.sourceMetadata[k] == "") && enableTransMeta
                        && opts.serverMetadata.Some? && "selector-meta-" + k in opts.serverMetadata.value ==>
                          Lookup(metadata, k) == Some(opts.serverMetadata.value["selector-meta-" + k])
  {
    var m := new Labels();
    if |opts.sourceEnvName| > 0 {
      m.labels := m.labels["env" := opts.sourceEnvName];
    }
    ghost var before := m.labels;
    if enableTransMeta {
      SetTransSelectorMeta(server, m);
    }
    ghost var transferred := m.labels;
    CopyLabels(source, m);
    metadata := m.labels;
    forall k
      ensures Lookup(metadata, k) == SourceLabel(opts, enableTransMeta, k)
    {
      CopyLookup(source, opts.sourceMetadata, transferred, k);
      if enableTransMeta && server.Some? {
        TransferLookup(server.value, opts.serverMetadata.value, before, k);
      }
    }
  }

  // ----- what ends up under each key -------------------------------------------------

  function Lookup(m: map<string, string>, k: string): Option<string> {
    if k in m then Some(m[k]) else None
  }

  // The caller's own non-empty entries win over transferred ones, and those over the
  // environment; the server's key is the prefix and then this one.
  function SourceLabel(opts: Options, enableTransMeta: bool, k: string): Option<string> {
    if k != "" && k in opts.sourceMetadata && opts.sourceMetadata[k] != "" then Some(opts.sourceMetadata[k])
    else if enableTransMeta && opts.serverMetadata.Some? && PREFIX + k in opts.serverMetadata.value
    then Some(opts.serverMetadata.value[PREFIX + k])
    else if k == "env" && opts.sourceEnvName != "" then Some(opts.sourceEnvName)
    else None
  }

  lemma TrimmedInjective(a: string, b: string)
    requires PREFIX <= a && PREFIX <= b && Trimmed(a) == Trimmed(b)
    ensures a == b == PREFIX + Trimmed(a)
  {
    assert a == a[..|PREFIX|] + Trimmed(a) && b == b[..|PREFIX|] + Trimmed(b);
  }

  predicate Distinct(entries: seq<Entry>) {
    forall i, j :: 0 <= i < j < |entries| ==> entries[i].0 != entries[j].0
  }

  lemma {:induction false} TransferAt(entries: seq<Entry>, labels: map<string, string>, k: string)
    requires Distinct(entries)
    ensures forall e <- entries :: e.0 == PREFIX + k ==> Lookup(Transfer(entries, labels), k) == Some(e.1)
    ensures (forall e <- entries :: e.0 != PREFIX + k) ==> Lookup(Transfer(entries, labels), k) == Lookup(labels, k)
    decreases |entries|
  {
    if entries != [] {
      var n := |entries| - 1;
      var last := entries[n];
      TransferAt(entries[..n], labels, k);
      assert forall e :: e in entries <==> e in entries[..n] || e == last;
      if Transferred(last) {
        assert last.0 == PREFIX + Trimmed(last.0);
        assert Trimmed(PREFIX + k) == k;
      }
    }
  }

  lemma {:induction false} CopyAt(entries: seq<Entry>, labels: map<string, string>, k: string)
    requires Distinct(entries)
    ensures forall e <- entries :: e.0 == k && Proper(e) ==> Lookup(Copy(entries, labels), k) == Some(e.1)
    ensures (forall e <- entries :: e.0 == k ==> !Proper(e)) ==> Lookup(Copy(entries, labels), k) == Lookup(labels, k)
    decreases |entries|
  {
    if entries != [] {
      var n := |entries| - 1;
      CopyAt(entries[..n], labels, k);
      assert forall e :: e in entries <==> e in entries[..n] || e == entries[n];
    }
  }

  lemma TransferLookup(entries: seq<Entry>, m: map<string, string>, labels: map<string, string>, k: string)
    requires Enumerates(entries, m)
    ensures Lookup(Transfer(entries, labels), k) == if PREFIX + k in m then Some(m[PREFIX + k]) else Lookup(labels, k)
  {
    TransferAt(entries, labels, k);
    if PREFIX + k in m {
      assert (PREFIX + k, m[PREFIX + k]) in entries;
    }
  }

  lemma CopyLookup(entries: seq<Entry>, m: map<string, string>, labels: map<string, string>, k: string)
    requires Enumerates(entries, m)
    ensures Lookup(Copy(entries, labels), k)
            == if k != "" && k in m && m[k] != "" then Some(m[k]) else Lookup(labels, k)
  {
    CopyAt(entries, labels, k);
    if k in m {
      assert (k, m[k]) in entries;
    }
  }

  lemma SameLookups(a: map<string, string>, b: map<string, string>)
    requires forall k :: Lookup(a, k) == Lookup(b, k)
    ensures a == b
  {
    forall k
      ensures k in a <==> k in b
      ensures k in a ==> a[k] == b[k]
    {
      assert Lookup(a, k) == Lookup(b, k);
    }
  }

  // Whatever orders the two maps are visited in, the metadata is the same.
  lemma OrderIrrelevant(server: map<string, string>, source: map<string, string>, labels: map<string, string>,
                        v1: seq<Entry>, v2: seq<Entry>, s1: seq<Entry>, s2: seq<Entry>)
    requires Enumerates(v1, server) && Enumerates(v2, server)
    requires Enumerates(s1, source) && Enumerates(s2, source)
    ensures Copy(s1, Transfer(v1, labels)) == Copy(s2, Transfer(v2, labels))
  {
    forall k
      ensures Lookup(Transfer(v1, labels), k) == Lookup(Transfer(v2, labels), k)
      ensures Lookup(Copy(s1, Transfer(v1, labels)), k) == Lookup(Copy(s2, Transfer(v2, labels)), k)
    {
      TransferLookup(v1, server, labels, k);
      TransferLookup(v2, server, labels, k);
      CopyLookup(s1, source, Transfer(v1, labels), k);
      CopyLookup(s2, source, Transfer(v2, labels), k);
    }
    SameLookups(Copy(s1, Transfer(v1, labels)), Copy(s2, Transfer(v2, labels)));
  }

  // ----- the requests built from it ----------------------------------------------------

  datatype ServiceInfo = ServiceInfo(service: string, namespace: string, metadata: map<string, string>)

  // A source service is sent unless routing is disabled or there is nothing to say of it.
  method ExtractSourceServiceRequestInfo(opts: Options, enableTransMeta: bool,
                                         server: Option<seq<Entry>>, source: seq<Entry>)
    returns (info: Option<ServiceInfo>)
    requires server.Some? <==> opts.serverMetadata.Some?
    requires server.Some? ==> Enumerates(server.value, opts.serverMetadata.value)
    requires Enumerates(source, opts.sourceMetadata)
    ensures info.None? <==>
            || opts.disableServiceRouter
            || (opts.sourceServiceName == "" && opts.sourceNamespace == ""
                && forall k :: SourceLabel(opts, enableTransMeta, k).None?)
    ensures info.Some? ==>
              && info.value.service == opts.sourceServiceName && info.value.namespace == opts.sourceNamespace
              && forall k :: Lookup(info.value.metadata, k) == SourceLabel(opts, enableTransMeta, k)
  {
    if opts.disableServiceRouter {
      return None;
    }
    var metadata := GetMetadata(opts, enableTransMeta, server, source);
    if opts.sourceServiceName != "" || opts.sourceNamespace != "" || |metadata| > 0 {
      if |metadata| > 0 {
        var k :| k in metadata;
        assert Lookup(metadata, k).Some?;
      }
      return Some(ServiceInfo(opts.sourceServiceName, opts.sourceNamespace, metadata));
    }
    return None;
  }

  // The callee's environment counts only when routing is disabled, and its own entries win.
  method GetDestMetadata(opts: Options, entries: seq<Entry>) returns (metadata: map<string, string>)
    requires Enumerates(entries, opts.destinationMetadata)
    ensures forall k :: Lookup(metadata, k) ==
              if k != "" && k in opts.destinationMetadata && opts.destinationMetadata[k] != ""
              then Some(opts.destinationMetadata[k])
              else if k == "env" && opts.disableServiceRouter && opts.destinationEnvName != ""
              then Some(opts.destinationEnvName)
              else None
  {
    var m := new Labels();
    if opts.disableServiceRouter {
      if |opts.destinationEnvName| > 0 {
        m.labels := m.labels["env" := opts.destinationEnvName];
      }
    }
    ghost var before := m.labels;
    CopyLabels(entries, m);
    metadata := m.labels;
    forall k
      ensures Lookup(metadata, k) ==
              if k != "" && k in opts.destinationMetadata && opts.destinationMetadata[k] != ""
              then Some(opts.destinationMetadata[k])
              else if k == "env" && opts.disableServiceRouter && opts.destinationEnvName != ""
              then Some(opts.destinationEnvName)
              else None
    {
      CopyLookup(entries, opts.destinationMetadata, before, k);
    }
  }
}
