/**
 * The path `GetServer` requests: "/v2/server", followed, when any flag of
 * the options is set, by "?" and one "X=true" parameter per set flag in a
 * fixed order, joined by "&".
 */
module ApiQuery {
  import opened Common
  import opened Types

  const ServerPath: string := "/v2/server"

  /** The parameter one flag contributes: `param` when set, nothing otherwise. */
  function Param(flag: bool, param: string): seq<string>
  {
    if flag then [param] else []
  }

  /** The parameters requested for `o`, in the order `GetServer` tests the flags. */
  function Params(o: ServerQueryOptions): seq<string>
  {
    Param(o.players, "Players=true") + Param(o.staff, "Staff=true") + Param(o.joinLogs, "JoinLogs=true")
    + Param(o.queue, "Queue=true") + Param(o.killLogs, "KillLogs=true") + Param(o.commandLogs, "CommandLogs=true")
    + Param(o.modCalls, "ModCalls=true") + Param(o.vehicles, "Vehicles=true")
  }

  /** Concatenation with "&" between consecutive parameters. */
  function Join(ps: seq<string>): string
  {
    if |ps| == 0 then ""
    else if |ps| == 1 then ps[0]
    else ps[0] + "&" + Join(ps[1..])
  }

  /** The query part of the path for the given variadic options (only the first is used). */
  function QueryPart(opts: seq<ServerQueryOptions>): string
  {
    if |opts| == 0 || Params(opts[0]) == [] then "" else "?" + Join(Params(opts[0]))
  }

  lemma {:induction false} JoinSnoc(ps: seq<string>, p: string)
    requires |ps| > 0
    ensures Join(ps + [p]) == Join(ps) + "&" + p
  {
    if |ps| > 1 {
      assert (ps + [p])[1..] == ps[1..] + [p];
      JoinSnoc(ps[1..], p);
    }
  }

  /** `GetServer`'s eight flag tests, each appending its parameter. */
  method ServerParams(opt: ServerQueryOptions) returns (params: seq<string>)
    ensures params == Params(opt)
  {
    params := [];
    if opt.players { params := params + ["Players=true"]; }
    assert params == Param(opt.players, "Players=true");
    ghost var p := params;
    if opt.staff { params := params + ["Staff=true"]; }
    assert params == p + Param(opt.staff, "Staff=true");
    p := params;
    if opt.joinLogs { params := params + ["JoinLogs=true"]; }
    assert params == p + Param(opt.joinLogs, "JoinLogs=true");
    p := params;
    if opt.queue { params := params + ["Queue=true"]; }
    assert params == p + Param(opt.queue, "Queue=true");
    p := params;
    if opt.killLogs { params := params + ["KillLogs=true"]; }
    assert params == p + Param(opt.killLogs, "KillLogs=true");
    p := params;
    if opt.commandLogs { params := params + ["CommandLogs=true"]; }
    assert params == p + Param(opt.commandLogs, "CommandLogs=true");
    p := params;
    if opt.modCalls { params := params + ["ModCalls=true"]; }
    assert params == p + Param(opt.modCalls, "ModCalls=true");
    p := params;
    if opt.vehicles { params := params + ["Vehicles=true"]; }
    assert params == p + Param(opt.vehicles, "Vehicles=true");
  }

  /** The loop that writes "?" and the parameters with "&" between them. */
  method BuildQuery(params: seq<string>) returns (query: string)
    requires |params| > 0
    ensures query == "?" + Join(params)
  {
    query := "?";
    var i := 0;
    while i < |params|
      invariant 0 <= i <= |params|
      invariant query == "?" + Join(params[..i])
    {
      if i > 0 {
        JoinSnoc(params[..i], params[i]);
        assert params[..i + 1] == params[..i] + [params[i]];
        query := query + "&";
      } else {
        assert params[..1] == [params[0]];
      }
      query := query + params[i];
      i := i + 1;
    }
    assert params[..|params|] == params;
  }

  /** `GetServer`'s request path for its variadic options (only the first is used). */
  method GetServerPath(opts: seq<ServerQueryOptions>) returns (path: string)
    ensures path == ServerPath + QueryPart(opts)
  {
    var query := "";
    if |opts| > 0 {
      var params := ServerParams(opts[0]);
      if |params| > 0 {
        query := BuildQuery(params);
      }
    }
    path := ServerPath + query;
  }

  // ---- Reading a path back ----

  /** Index of the first '&' in `s`, or `|s|` when there is none. */
  function AmpIndex(s: string): (i: nat)
    ensures i <= |s|
    ensures forall j :: 0 <= j < i ==> s[j] != '&'
    ensures i < |s| ==> s[i] == '&'
  {
    if |s| == 0 || s[0] == '&' then 0 else 1 + AmpIndex(s[1..])
  }

  /** The "&"-separated fields of a query. */
  function Split(s: string): seq<string>
    decreases |s|
  {
    var i := AmpIndex(s);
    if i == |s| then [s] else [s[..i]] + Split(s[i + 1..])
  }

  predicate NoAmp(p: string) {
    forall j :: 0 <= j < |p| ==> p[j] != '&'
  }

  lemma {:induction false} AmpIndexAfter(x: string, rest: string)
    requires NoAmp(x)
    ensures AmpIndex(x + rest) == |x| + AmpIndex(rest)
  {
    if |x| > 0 {
      assert (x + rest)[1..] == x[1..] + rest;
      AmpIndexAfter(x[1..], rest);
    } else {
      assert x + rest == rest;
    }
  }

  lemma {:induction false} SplitJoin(ps: seq<string>)
    requires |ps| > 0
    requires forall k :: 0 <= k < |ps| ==> NoAmp(ps[k])
    ensures Split(Join(ps)) == ps
  {
    if |ps| == 1 {
      AmpIndexAfter(ps[0], "");
      assert ps[0] + "" == ps[0];
    } else {
      var rest := Join(ps[1..]);
      var s := ps[0] + "&" + rest;
      assert s == ps[0] + ("&" + rest);
      AmpIndexAfter(ps[0], "&" + rest);
      assert AmpIndex(s) == |ps[0]|;
      assert s[..|ps[0]|] == ps[0];
      assert s[|ps[0]| + 1..] == rest;
      SplitJoin(ps[1..]);
      assert Split(s) == [ps[0]] + ps[1..];
    }
  }

  /** The options a list of query fields asks for. */
  function OptionsOf(fields: seq<string>): ServerQueryOptions
  {
    ServerQueryOptions(
      "Players=true" in fields, "Staff=true" in fields, "JoinLogs=true" in fields, "Queue=true" in fields,
      "KillLogs=true" in fields, "CommandLogs=true" in fields, "ModCalls=true" in fields, "Vehicles=true" in fields)
  }

  const NoOptions: ServerQueryOptions := ServerQueryOptions(false, false, false, false, false, false, false, false)

  /** Which options a requested path stands for, if it is a server path at all. */
  function ParseServerPath(path: string): Option<ServerQueryOptions>
  {
    if |path| < |ServerPath| || path[..|ServerPath|] != ServerPath then None
    else
      var rest := path[|ServerPath|..];
      if rest == "" then Some(NoOptions)
      else if rest[0] == '?' then Some(OptionsOf(Split(rest[1..])))
      else None
  }

  /** Each parameter of `Params(o)` is one of the eight, starting with the letter that identifies it. */
  lemma ParamsFirstLetters(o: ServerQueryOptions, x: string)
    requires x in Params(o)
    ensures |x| > 0
    ensures x[0] == 'P' ==> x == "Players=true" && o.players
    ensures x[0] == 'S' ==> x == "Staff=true" && o.staff
    ensures x[0] == 'J' ==> x == "JoinLogs=true" && o.joinLogs
    ensures x[0] == 'Q' ==> x == "Queue=true" && o.queue
    ensures x[0] == 'K' ==> x == "KillLogs=true" && o.killLogs
    ensures x[0] == 'C' ==> x == "CommandLogs=true" && o.commandLogs
    ensures x[0] == 'M' ==> x == "ModCalls=true" && o.modCalls
    ensures x[0] == 'V' ==> x == "Vehicles=true" && o.vehicles
    ensures NoAmp(x)
  {
  }

  /** A set flag puts its parameter in the list. */
  lemma SetFlagsListed(o: ServerQueryOptions)
    ensures o.players ==> "Players=true" in Params(o)
    ensures o.staff ==> "Staff=true" in Params(o)
    ensures o.joinLogs ==> "JoinLogs=true" in Params(o)
    ensures o.queue ==> "Queue=true" in Params(o)
    ensures o.killLogs ==> "KillLogs=true" in Params(o)
    ensures o.commandLogs ==> "CommandLogs=true" in Params(o)
    ensures o.modCalls ==> "ModCalls=true" in Params(o)
    ensures o.vehicles ==> "Vehicles=true" in Params(o)
  {
  }

  /** The fields of the query give back the options, and there are none exactly when no flag is set. */
  lemma ParamsContents(o: ServerQueryOptions)
    ensures forall k :: 0 <= k < |Params(o)| ==> NoAmp(Params(o)[k])
    ensures OptionsOf(Params(o)) == o
    ensures Params(o) == [] <==> o == NoOptions
  {
    var ps := Params(o);
    forall k | 0 <= k < |ps| ensures NoAmp(ps[k]) {
      ParamsFirstLetters(o, ps[k]);
    }
    SetFlagsListed(o);
    assert ("Players=true" in ps) == o.players by {
      if "Players=true" in ps { ParamsFirstLetters(o, "Players=true"); }
    }
    assert ("Staff=true" in ps) == o.staff by {
      if "Staff=true" in ps { ParamsFirstLetters(o, "Staff=true"); }
    }
    assert ("JoinLogs=true" in ps) == o.joinLogs by {
      if "JoinLogs=true" in ps { ParamsFirstLetters(o, "JoinLogs=true"); }
    }
    assert ("Queue=true" in ps) == o.queue by {
      if "Queue=true" in ps { ParamsFirstLetters(o, "Queue=true"); }
    }
    assert ("KillLogs=true" in ps) == o.killLogs by {
      if "KillLogs=true" in ps { ParamsFirstLetters(o, "KillLogs=true"); }
    }
    assert ("CommandLogs=true" in ps) == o.commandLogs by {
      if "CommandLogs=true" in ps { ParamsFirstLetters(o, "CommandLogs=true"); }
    }
    assert ("ModCalls=true" in ps) == o.modCalls by {
      if "ModCalls=true" in ps { ParamsFirstLetters(o, "ModCalls=true"); }
    }
    assert ("Vehicles=true" in ps) == o.vehicles by {
      if "Vehicles=true" in ps { ParamsFirstLetters(o, "Vehicles=true"); }
    }
    if o == NoOptions {
      assert ps == [];
    }
  }

  /** Reading back the path recovers the first options value (or none set when there was none). */
  lemma PathRoundTrip(opts: seq<ServerQueryOptions>)
    ensures ParseServerPath(ServerPath + QueryPart(opts)) == Some(if |opts| == 0 then NoOptions else opts[0])
  {
    var path := ServerPath + QueryPart(opts);
    assert path[..|ServerPath|] == ServerPath;
    assert path[|ServerPath|..] == QueryPart(opts);
    if |opts| > 0 {
      ParamsContents(opts[0]);
      if Params(opts[0]) != [] {
        SplitJoin(Params(opts[0]));
        assert QueryPart(opts)[1..] == Join(Params(opts[0]));
      }
    }
  }

  /** A "?" appears exactly when some flag of the first options value is set. */
  lemma QueryMarkIffFlag(opts: seq<ServerQueryOptions>)
    ensures QueryPart(opts) == "" <==> |opts| == 0 || opts[0] == NoOptions
    ensures QueryPart(opts) != "" ==> QueryPart(opts)[0] == '?'
  {
    if |opts| > 0 {
      ParamsContents(opts[0]);
    }
  }
}
