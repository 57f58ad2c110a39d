/** Environment priority lists: printed from the outbound rules of a service, carried from
    hop to hop as one comma-separated string, and parsed back into rules. */
module EnvLists {
  import opened Wrappers

  // ----- strings.Split and strings.Join at the comma --------------------------

  function Split(s: string): (parts: seq<string>)
    ensures |parts| >= 1
  {
    if s == "" then [""]
    else
      var rest := Split(s[1..]);
      if s[0] == ',' then [""] + rest else [[s[0]] + rest[0]] + rest[1..]
  }

  function Join(parts: seq<string>): string {
    if |parts| == 0 then ""
    else if |parts| == 1 then parts[0]
    else parts[0] + "," + Join(parts[1..])
  }

  predicate CommaFree(s: string) {
    ',' !in s
  }

  predicate AllCommaFree(parts: seq<string>) {
    forall part <- parts :: CommaFree(part)
  }

  lemma {:induction false} SplitIsCommaFree(s: string)
    ensures AllCommaFree(Split(s))
    decreases |s|
  {
    if s != "" {
      SplitIsCommaFree(s[1..]);
      var rest := Split(s[1..]);
      forall part <- Split(s)
        ensures CommaFree(part)
      {
        if part !in rest && part != "" {
          assert part == [s[0]] + rest[0];
          assert rest[0] in rest;
        }
      }
    }
  }

  lemma {:induction false} JoinSplit(s: string)
    ensures Join(Split(s)) == s
    decreases |s|
  {
    if s != "" {
      JoinSplit(s[1..]);
      var rest := Split(s[1..]);
      if s[0] == ',' {
        assert Split(s)[1..] == rest;
        assert Join(Split(s)) == "" + "," + Join(rest);
      } else {
        assert Split(s)[1..] == rest[1..];
        if |rest| > 1 {
          assert Join(Split(s)) == [s[0]] + (rest[0] + "," + Join(rest[1..]));
        }
      }
      assert s == [s[0]] + s[1..];
    }
  }

  // What Split makes of a comma-free piece followed by more.
  lemma {:induction false} SplitPiece(part: string, tail: string)
    requires CommaFree(part)
    ensures Split(part) == [part]
    ensures Split(part + "," + tail) == [part] + Split(tail)
    decreases |part|
  {
    if part == "" {
      assert part + "," + tail == "," + tail;
    } else {
      SplitPiece(part[1..], tail);
      assert (part + "," + tail)[1..] == part[1..] + "," + tail;
      assert part == [part[0]] + part[1..];
    }
  }

  lemma {:induction false} SplitJoin(parts: seq<string>)
    requires parts != [] && AllCommaFree(parts)
    ensures Split(Join(parts)) == parts
    decreases |parts|
  {
    SplitPiece(parts[0], Join(parts[1..]));
    if |parts| > 1 {
      SplitJoin(parts[1..]);
      assert parts == [parts[0]] + parts[1..];
    }
  }

  // A joined list parses back exactly when none of its members contains a comma.
  lemma ListParsesBack(parts: seq<string>)
    requires parts != []
    ensures Split(Join(parts)) == parts <==> AllCommaFree(parts)
  {
    SplitIsCommaFree(Join(parts));
    if AllCommaFree(parts) {
      SplitJoin(parts);
    }
  }

  function NonEmpty(parts: seq<string>): seq<string> {
    if parts == [] then []
    else (if parts[0] == "" then [] else [parts[0]]) + NonEmpty(parts[1..])
  }

  lemma {:induction false} NonEmptyAgain(parts: seq<string>)
    ensures "" !in NonEmpty(parts)
    ensures forall part <- NonEmpty(parts) :: part in parts
    ensures NonEmpty(parts) == parts <==> "" !in parts
    ensures |NonEmpty(parts)| <= |parts|
    decreases |parts|
  {
    if parts != [] {
      NonEmptyAgain(parts[1..]);
      assert parts == [parts[0]] + parts[1..];
    }
  }

  // ----- route rules ----------------------------------------------------------

  // Pointers to wrapped values may be nil; their getters then give the zero value.
  function Text(value: Option<string>): string {
    if value.None? then "" else value.value
  }

  datatype MatchString = MatchString(value: Option<string>)

  type Labels = Option<map<string, MatchString>>

  datatype Source = Source(namespace: Option<string>, service: Option<string>, metadata: Labels)

  datatype Destination = Destination(
    namespace: Option<string>,
    service: Option<string>,
    priority: Option<nat>,
    weight: Option<nat>,
    metadata: Labels
  )

  datatype Route = Route(sources: seq<Source>, destinations: seq<Destination>)

  predicate Labelled(labels: Labels) {
    labels.Some? && "env" in labels.value
  }

  function EnvLabel(labels: Labels): string
    requires Labelled(labels)
  {
    Text(labels.value["env"].value)
  }

  // Some source of the route is the environment asked for.
  predicate ComesFrom(route: Route, env: string) {
    exists source <- route.sources :: Labelled(source.metadata) && EnvLabel(source.metadata) == env
  }

  // The environment a destination leads to, if it is one for every service.
  function EnvOf(dest: Destination): Option<string> {
    if Labelled(dest.metadata) && Text(dest.service) == "*" && EnvLabel(dest.metadata) != ""
    then Some(EnvLabel(dest.metadata))
    else None
  }

  function Envs(dests: seq<Destination>): seq<string> {
    if dests == [] then []
    else
      var last := EnvOf(dests[|dests| - 1]);
      Envs(dests[..|dests| - 1]) + if last.Some? then [last.value] else []
  }

  function EnvPriority(routes: seq<Route>, env: string): seq<string> {
    if routes == [] then []
    else
      var last := routes[|routes| - 1];
      EnvPriority(routes[..|routes| - 1], env) + if ComesFrom(last, env) then Envs(last.destinations) else []
  }

  method HasEnv(route: Route, env: string) returns (hasEnv: bool)
    ensures hasEnv <==> ComesFrom(route, env)
  {
    hasEnv := false;
    for i := 0 to |route.sources|
      invariant !hasEnv
      invariant forall source <- route.sources[..i] ::
          !(Labelled(source.metadata) && EnvLabel(source.metadata) == env)
    {
      var source := route.sources[i];
      if source.metadata.None? {
        continue;
      }
      if "env" !in source.metadata.value {
        continue;
      }
      if Text(source.metadata.value["env"].value) == env {
        hasEnv := true;
        break;
      }
    }
  }

  method GetDestination(route: Route) returns (result: seq<string>)
    ensures result == Envs(route.destinations)
  {
    result := [];
    for i := 0 to |route.destinations|
      invariant result == Envs(route.destinations[..i])
    {
      assert route.destinations[..i + 1][..i] == route.destinations[..i];
      var dest := route.destinations[i];
      if dest.metadata.None? {
        continue;
      }
      if "env" !in dest.metadata.value {
        continue;
      }
      var value := Text(dest.metadata.value["env"].value);
      if Text(dest.service) == "*" && value != "" {
        result := result + [value];
      }
    }
    assert route.destinations[..|route.destinations|] == route.destinations;
  }

  method GetEnvPriority(routes: seq<Route>, env: string) returns (list: string)
    ensures list == Join(EnvPriority(routes, env))
  {
    var result: seq<string> := [];
    for i := 0 to |routes|
      invariant result == EnvPriority(routes[..i], env)
    {
      assert routes[..i + 1][..i] == routes[..i];
      var has := HasEnv(routes[i], env);
      if !has {
        continue;
      }
      var dest := GetDestination(routes[i]);
      result := result + dest;
    }
    assert routes[..|routes|] == routes;
    list := Join(result);
  }

  const UINT32 := 0x1_0000_0000

  function EnvLabels(env: string): Labels {
    Some(map["env" := MatchString(Some(env))])
  }

  function EnvDestination(namespace: string, i: nat, env: string): Destination {
    Destination(Some(namespace), Some("*"), Some(i % UINT32), Some(100), EnvLabels(env))
  }

  // The one route of the rules built from a list of environments.
  function EnvRoute(sourceNamespace: string, sourceService: string, sourceEnv: string,
                    destNamespace: string, envs: seq<string>): Route {
    Route([Source(Some(sourceNamespace), Some(sourceService), EnvLabels(sourceEnv))],
          seq(|envs|, i requires 0 <= i < |envs| => EnvDestination(destNamespace, i, envs[i])))
  }

  // One source, the caller in its environment; and one destination a segment, in list
  // order, with priorities counting up from 0 in 32 bits, and weight 100.
  predicate SpellsOut(route: Route, sourceNamespace: string, sourceService: string, sourceEnv: string,
                      destNamespace: string, envs: seq<string>) {
    && |route.sources| == 1
    && route.sources[0].namespace == Some(sourceNamespace) && route.sources[0].service == Some(sourceService)
    && Labelled(route.sources[0].metadata) && EnvLabel(route.sources[0].metadata) == sourceEnv
    && |route.destinations| == |envs|
    && forall i :: 0 <= i < |envs| ==>
         var dest := route.destinations[i];
         && dest.namespace == Some(destNamespace) && dest.service == Some("*")
         && dest.weight == Some(100)
         && dest.priority == Some(i % UINT32)
         && Labelled(dest.metadata) && EnvLabel(dest.metadata) == envs[i]
  }

  lemma EnvRouteSpellsOut(sourceNamespace: string, sourceService: string, sourceEnv: string,
                          destNamespace: string, envs: seq<string>)
    ensures SpellsOut(EnvRoute(sourceNamespace, sourceService, sourceEnv, destNamespace, envs),
                      sourceNamespace, sourceService, sourceEnv, destNamespace, envs)
  {
  }

  method BuildRouteRules(sourceNamespace: string, sourceService: string, sourceEnv: string,
                         destNamespace: string, envList: seq<string>) returns (outbounds: seq<Route>)
    ensures outbounds == [EnvRoute(sourceNamespace, sourceService, sourceEnv, destNamespace, envList)]
  {
    var dests: seq<Destination> := [];
    for i := 0 to |envList|
      invariant |dests| == i
      invariant forall k :: 0 <= k < i ==> dests[k] == EnvDestination(destNamespace, k, envList[k])
    {
      var dest := Destination(Some(destNamespace), Some("*"), Some(i % UINT32), Some(100), EnvLabels(envList[i]));
      dests := dests + [dest];
    }
    assert dests == EnvRoute(sourceNamespace, sourceService, sourceEnv, destNamespace, envList).destinations;
    outbounds := [Route([Source(Some(sourceNamespace), Some(sourceService), EnvLabels(sourceEnv))], dests)];
  }

  // ----- printing what was parsed ----------------------------------------------

  lemma EnvsAppend(dests: seq<Destination>, dest: Destination)
    ensures Envs(dests + [dest]) == Envs(dests) + if EnvOf(dest).Some? then [EnvOf(dest).value] else []
  {
    assert (dests + [dest])[..|dests|] == dests;
  }

  lemma {:induction false} NonEmptyAppend(parts: seq<string>, part: string)
    ensures NonEmpty(parts + [part]) == NonEmpty(parts) + if part == "" then [] else [part]
    decreases |parts|
  {
    if parts != [] {
      NonEmptyAppend(parts[1..], part);
      assert (parts + [part])[1..] == parts[1..] + [part];
    }
  }

  lemma OneMoreDestination(sourceNamespace: string, sourceService: string, sourceEnv: string,
                           destNamespace: string, envs: seq<string>)
    requires envs != []
    ensures var n := |envs| - 1;
            EnvRoute(sourceNamespace, sourceService, sourceEnv, destNamespace, envs).destinations
            == EnvRoute(sourceNamespace, sourceService, sourceEnv, destNamespace, envs[..n]).destinations
               + [EnvDestination(destNamespace, n, envs[n])]
  {
  }

  lemma {:induction false} EnvsOfRoute(sourceNamespace: string, sourceService: string, sourceEnv: string,
                                       destNamespace: string, envs: seq<string>)
    ensures Envs(EnvRoute(sourceNamespace, sourceService, sourceEnv, destNamespace, envs).destinations)
            == NonEmpty(envs)
    decreases |envs|
  {
    if envs != [] {
      var n := |envs| - 1;
      EnvsOfRoute(sourceNamespace, sourceService, sourceEnv, destNamespace, envs[..n]);
      OneMoreDestination(sourceNamespace, sourceService, sourceEnv, destNamespace, envs);
      EnvsAppend(EnvRoute(sourceNamespace, sourceService, sourceEnv, destNamespace, envs[..n]).destinations,
                 EnvDestination(destNamespace, n, envs[n]));
      NonEmptyAppend(envs[..n], envs[n]);
      assert envs == envs[..n] + [envs[n]];
    }
  }

  function Normalised(s: string): string {
    Join(NonEmpty(Split(s)))
  }

  // Printing the rules built from a transferred list gives the list without its empty
  // segments to a caller from the same environment, and nothing to any other.
  lemma RoundTrip(sourceNamespace: string, sourceService: string, sourceEnv: string,
                  destNamespace: string, s: string, env: string)
    ensures var outbounds := [EnvRoute(sourceNamespace, sourceService, sourceEnv, destNamespace, Split(s))];
            Join(EnvPriority(outbounds, env)) == if env == sourceEnv then Normalised(s) else ""
  {
    var route := EnvRoute(sourceNamespace, sourceService, sourceEnv, destNamespace, Split(s));
    EnvsOfRoute(sourceNamespace, sourceService, sourceEnv, destNamespace, Split(s));
    PriorityOfOne(route, env);
    var source := Source(Some(sourceNamespace), Some(sourceService), EnvLabels(sourceEnv));
    assert route.sources == [source] && source in route.sources;
    assert Labelled(source.metadata) && EnvLabel(source.metadata) == sourceEnv;
    assert ComesFrom(route, env) <==> env == sourceEnv;
    assert EnvPriority([route], env) == if env == sourceEnv then NonEmpty(Split(s)) else [];
    assert Join(EnvPriority([route], env)) == if env == sourceEnv then Normalised(s) else "";
  }

  lemma SplitNormalised(s: string)
    ensures NonEmpty(Split(s)) != [] ==> Split(Normalised(s)) == NonEmpty(Split(s))
  {
    NonEmptyAgain(Split(s));
    SplitIsCommaFree(s);
    if NonEmpty(Split(s)) != [] {
      SplitJoin(NonEmpty(Split(s)));
    }
  }

  // The round trip is exact for a non-empty string exactly when it has no empty segment,
  // and a second trip changes nothing.
  lemma NormalisedFixpoint(s: string)
    ensures s != "" ==> (Normalised(s) == s <==> "" !in Split(s))
    ensures Normalised(Normalised(s)) == Normalised(s)
  {
    JoinSplit(s);
    NonEmptyAgain(Split(s));
    SplitNormalised(s);
    if NonEmpty(Split(s)) == [] {
      assert Split("") == [""];
      assert NonEmpty([""]) == [] + NonEmpty([""][1..]);
    } else {
      NonEmptyAgain(NonEmpty(Split(s)));
    }
  }

  // The list printed from any rules has no empty member, and is parsed back by the next
  // hop exactly when no environment's name contains a comma.
  lemma {:induction false} PriorityIsNonEmpty(routes: seq<Route>, env: string)
    ensures "" !in EnvPriority(routes, env)
    ensures EnvPriority(routes, env) != [] ==>
              (Split(Join(EnvPriority(routes, env))) == EnvPriority(routes, env)
               <==> AllCommaFree(EnvPriority(routes, env)))
    decreases |routes|
  {
    if routes != [] {
      PriorityIsNonEmpty(routes[..|routes| - 1], env);
      EnvsNonEmpty(routes[|routes| - 1].destinations);
    }
    if EnvPriority(routes, env) != [] {
      ListParsesBack(EnvPriority(routes, env));
    }
  }

  lemma {:induction false} EnvsNonEmpty(dests: seq<Destination>)
    ensures "" !in Envs(dests)
    decreases |dests|
  {
    if dests != [] {
      EnvsNonEmpty(dests[..|dests| - 1]);
    }
  }

  // ----- what any rules print --------------------------------------------------------

  // Environments are printed route by route in the order of the rules.
  lemma {:induction false} PriorityAppend(r: seq<Route>, s: seq<Route>, env: string)
    ensures EnvPriority(r + s, env) == EnvPriority(r, env) + EnvPriority(s, env)
    decreases |s|
  {
    if s == [] {
      assert r + s == r;
    } else {
      var rest, last := s[..|s| - 1], s[|s| - 1];
      PriorityAppend(r, rest, env);
      assert (r + s)[..|r + s| - 1] == r + rest && (r + s)[|r + s| - 1] == last;
    }
  }

  lemma PriorityOfOne(route: Route, env: string)
    ensures EnvPriority([route], env) == if ComesFrom(route, env) then Envs(route.destinations) else []
  {
    assert [route][..0] == [] && EnvPriority([route][..0], env) == [];
  }

  // And within a route destination by destination.
  lemma {:induction false} EnvsSplit(d: seq<Destination>, e: seq<Destination>)
    ensures Envs(d + e) == Envs(d) + Envs(e)
    decreases |e|
  {
    if e == [] {
      assert d + e == d;
    } else {
      var rest, last := e[..|e| - 1], e[|e| - 1];
      EnvsSplit(d, rest);
      assert (d + e)[..|d + e| - 1] == d + rest && (d + e)[|d + e| - 1] == last;
    }
  }

  lemma PriorityWithinRoute(sources: seq<Source>, d: seq<Destination>, e: seq<Destination>, env: string)
    ensures EnvPriority([Route(sources, d + e)], env)
            == EnvPriority([Route(sources, d)], env) + EnvPriority([Route(sources, e)], env)
  {
    EnvsSplit(d, e);
    PriorityOfOne(Route(sources, d + e), env);
    PriorityOfOne(Route(sources, d), env);
    PriorityOfOne(Route(sources, e), env);
  }

  // The value under a label, if there is one; a nil value reads as empty.
  predicate Carries(labels: Labels, env: string) {
    && labels.Some? && "env" in labels.value
    && (labels.value["env"].value == Some(env) || (env == "" && labels.value["env"].value == None))
  }

  lemma ComesFromCarries(route: Route, env: string)
    ensures ComesFrom(route, env) <==> exists source <- route.sources :: Carries(source.metadata, env)
  {
    if source :| source in route.sources && Carries(source.metadata, env) {
      assert Labelled(source.metadata) && EnvLabel(source.metadata) == env;
    }
    if source :| source in route.sources && Labelled(source.metadata) && EnvLabel(source.metadata) == env {
      assert Carries(source.metadata, env);
    }
  }

  // One destination adds its environment exactly when that is named, the destination is for
  // every service, and any one source of its route carries the environment asked for.
  lemma PriorityOfDestination(sources: seq<Source>, dest: Destination, env: string, printed: string)
    ensures EnvPriority([Route(sources, [dest])], env) == [printed] <==>
            && (exists source <- sources :: Carries(source.metadata, env))
            && dest.service == Some("*") && Carries(dest.metadata, printed) && printed != ""
    ensures |EnvPriority([Route(sources, [dest])], env)| <= 1
  {
    var route := Route(sources, [dest]);
    PriorityOfOne(route, env);
    EnvsAppend([], dest);
    assert [] + [dest] == [dest];
    assert Envs([dest]) == if EnvOf(dest).Some? then [EnvOf(dest).value] else [];
    assert EnvOf(dest) == Some(printed) <==>
           dest.service == Some("*") && Carries(dest.metadata, printed) && printed != "";
    ComesFromCarries(route, env);
  }
}
