/** The credential record and the URLs the runner builds from it: the
    simulation service's fork API and the dashboard link to a simulation.
    A URL is read back by splitting it at '/', which shows that each link
    names its account, project, fork and simulation unambiguously. */
module Endpoints {
  import opened Wrappers

  /** Account and project identify the service's workspace; the access key
      travels in a request header, which is not part of this model. */
  datatype Config = Config(account: string, project: string, key: string)

  const ApiBase: string := "https://api.tenderly.co/api/v1/account/"
  const DashboardBase: string := "https://dashboard.tenderly.co/"

  /** The fork API of the workspace (`forkEndpoint`). */
  function ForkEndpoint(cfg: Config): string {
    ApiBase + cfg.account + "/project/" + cfg.project + "/fork"
  }

  /** Where a simulation against fork `forkId` is posted. */
  function SimulateEndpoint(cfg: Config, forkId: string): string {
    ForkEndpoint(cfg) + "/" + forkId + "/simulate"
  }

  /** How a template literal renders the fork's head: an absent head prints
      as "undefined". */
  function HeadText(head: Option<string>): string {
    match head
    case Some(h) => h
    case None => "undefined"
  }

  /** The dashboard link to the fork's current head (`viewSimulationEndpoint`). */
  function ViewSimulationEndpoint(cfg: Config, forkId: string, head: Option<string>): string {
    DashboardBase + cfg.account + "/" + cfg.project + "/fork/" + forkId
      + "/simulation/" + HeadText(head)
  }

  /** A piece of text that can stand as one path segment. */
  predicate IsSegment(s: string) {
    '/' !in s
  }

  /** The segments of a path after one more character: '/' opens a new,
      empty segment; any other character extends the last one. */
  function Push(parts: seq<string>, c: char): (r: seq<string>)
    requires |parts| >= 1
    ensures |r| >= 1
  {
    if c == '/' then parts + [[]] else parts[..|parts| - 1] + [parts[|parts| - 1] + [c]]
  }

  /** The segments of a path, in order: the text between consecutive '/'. */
  function Split(s: string): (parts: seq<string>)
    ensures |parts| >= 1
  {
    if s == [] then [[]] else Push(Split(s[..|s| - 1]), s[|s| - 1])
  }

  /** The segments of two paths written one after the other: the last
      segment of the first and the first segment of the second merge. */
  function Glue(xs: seq<string>, ys: seq<string>): (zs: seq<string>)
    requires |xs| >= 1 && |ys| >= 1
    ensures |zs| == |xs| + |ys| - 1
  {
    xs[..|xs| - 1] + [xs[|xs| - 1] + ys[0]] + ys[1..]
  }

  lemma SplitSnoc(s: string, c: char)
    ensures Split(s + [c]) == Push(Split(s), c)
  {
    assert (s + [c])[..|s|] == s;
  }

  lemma PushGlue(xs: seq<string>, ys: seq<string>, c: char)
    requires |xs| >= 1 && |ys| >= 1
    ensures Push(Glue(xs, ys), c) == Glue(xs, Push(ys, c))
  {
    if c != '/' && |ys| == 1 {
      assert xs[|xs| - 1] + ys[0] + [c] == xs[|xs| - 1] + (ys[0] + [c]);
    }
  }

  /** Splitting is compatible with concatenation. */
  lemma {:induction false} SplitAppend(x: string, y: string)
    ensures Split(x + y) == Glue(Split(x), Split(y))
    decreases |y|
  {
    if y == [] {
      assert x + y == x;
      var xs := Split(x);
      assert xs[|xs| - 1] + [] == xs[|xs| - 1];
    } else {
      var y', c := y[..|y| - 1], y[|y| - 1];
      assert x + y == (x + y') + [c];
      SplitAppend(x, y');
      SplitSnoc(x + y', c);
      PushGlue(Split(x), Split(y'), c);
    }
  }

  lemma {:induction false} SplitSegment(a: string)
    requires IsSegment(a)
    ensures Split(a) == [a]
  {
    if a != [] {
      SplitSegment(a[..|a| - 1]);
      assert a == a[..|a| - 1] + [a[|a| - 1]];
    }
  }

  lemma SplitSlash(s: string)
    ensures Split(s + "/") == Split(s) + [""]
  {
    SplitSnoc(s, '/');
  }

  /** Appending '/' and a segment adds exactly that segment. */
  lemma SplitSlashSegment(s: string, b: string)
    requires IsSegment(b)
    ensures Split(s + "/" + b) == Split(s) + [b]
  {
    var xs := Split(s);
    SplitSlash(s);
    SplitSegment(b);
    SplitAppend(s + "/", b);
    assert "" + b == b;
  }

  /** Appending `infix`, which is '/', a word and '/', and then a segment
      adds the word and the segment. */
  lemma SplitInfix(s: string, infix: string, w: string, b: string)
    requires infix == "/" + w + "/"
    requires IsSegment(w) && IsSegment(b)
    ensures Split(s + infix + b) == Split(s) + [w, b]
  {
    assert s + infix + b == s + "/" + w + "/" + b;
    SplitSlashSegment(s, w);
    SplitSlashSegment(s + "/" + w, b);
  }

  lemma SplitHost(host: string)
    requires IsSegment(host)
    ensures Split("https:" + "/" + "" + "/" + host) == ["https:", "", host]
  {
    SplitSegment("https:");
    SplitSlashSegment("https:", "");
    SplitSlashSegment("https:" + "/" + "", host);
  }

  lemma DashboardText()
    ensures "https:" + "/" + "" + "/" + "dashboard.tenderly.co" + "/" == "https://dashboard.tenderly.co/"
  {
  }

  lemma ApiText()
    ensures "https:" + "/" + "" + "/" + "api.tenderly.co" + "/" + "api" + "/" + "v1" + "/" + "account" + "/"
         == "https://api.tenderly.co/api/v1/account/"
  {
  }

  lemma SplitDashboard(x: string)
    requires IsSegment(x)
    ensures Split("https://dashboard.tenderly.co/" + x) == ["https:", "", "dashboard.tenderly.co", x]
  {
    var host := "https:" + "/" + "" + "/" + "dashboard.tenderly.co";
    DashboardText();
    SplitHost("dashboard.tenderly.co");
    SplitSlashSegment(host, x);
  }

  lemma SplitApi(x: string)
    requires IsSegment(x)
    ensures Split("https://api.tenderly.co/api/v1/account/" + x)
         == ["https:", "", "api.tenderly.co", "api", "v1", "account", x]
  {
    var host := "https:" + "/" + "" + "/" + "api.tenderly.co";
    SplitHost("api.tenderly.co");
    SplitSlashSegment(host, "api");
    SplitSlashSegment(host + "/" + "api", "v1");
    SplitSlashSegment(host + "/" + "api" + "/" + "v1", "account");
    var path := host + "/" + "api" + "/" + "v1" + "/" + "account";
    ApiText();
    SplitSlashSegment(path, x);
  }

  /** The dashboard link reads back as scheme, host, account, project,
      "fork", fork id, "simulation" and head. */
  lemma ViewSimulationSegments(cfg: Config, forkId: string, head: Option<string>)
    requires IsSegment(cfg.account) && IsSegment(cfg.project)
    requires IsSegment(forkId) && IsSegment(HeadText(head))
    ensures Split(ViewSimulationEndpoint(cfg, forkId, head))
         == ["https:", "", "dashboard.tenderly.co", cfg.account, cfg.project,
             "fork", forkId, "simulation", HeadText(head)]
  {
    var a := "https://dashboard.tenderly.co/" + cfg.account;
    SplitDashboard(cfg.account);
    SplitSlashSegment(a, cfg.project);
    var b := a + "/" + cfg.project;
    SplitInfix(b, "/fork/", "fork", forkId);
    SplitInfix(b + "/fork/" + forkId, "/simulation/", "simulation", HeadText(head));
  }

  /** The fork API URL reads back as the API path of the workspace. */
  lemma ForkEndpointSegments(cfg: Config)
    requires IsSegment(cfg.account) && IsSegment(cfg.project)
    ensures Split(ForkEndpoint(cfg))
         == ["https:", "", "api.tenderly.co", "api", "v1", "account", cfg.account,
             "project", cfg.project, "fork"]
  {
    var a := "https://api.tenderly.co/api/v1/account/" + cfg.account;
    SplitApi(cfg.account);
    SplitInfix(a, "/project/", "project", cfg.project);
    var b := a + "/project/" + cfg.project;
    SplitSlashSegment(b, "fork");
    assert b + "/" + "fork" == b + "/fork";
  }

  /** The simulate URL reads back as the fork API path, the fork id and
      "simulate". */
  lemma SimulateEndpointSegments(cfg: Config, forkId: string)
    requires IsSegment(cfg.account) && IsSegment(cfg.project) && IsSegment(forkId)
    ensures Split(SimulateEndpoint(cfg, forkId))
         == ["https:", "", "api.tenderly.co", "api", "v1", "account", cfg.account,
             "project", cfg.project, "fork", forkId, "simulate"]
  {
    ForkEndpointSegments(cfg);
    var f := ForkEndpoint(cfg);
    SplitSlashSegment(f, forkId);
    SplitSlashSegment(f + "/" + forkId, "simulate");
    assert f + "/" + forkId + "/" + "simulate" == f + "/" + forkId + "/simulate";
  }

  /** Two dashboard links are equal only when they name the same account,
      project, fork and head. */
  lemma ViewSimulationEndpointInjective(cfg: Config, forkId: string, head: Option<string>,
                                        cfg': Config, forkId': string, head': Option<string>)
    requires IsSegment(cfg.account) && IsSegment(cfg.project)
    requires IsSegment(forkId) && IsSegment(HeadText(head))
    requires IsSegment(cfg'.account) && IsSegment(cfg'.project)
    requires IsSegment(forkId') && IsSegment(HeadText(head'))
    requires ViewSimulationEndpoint(cfg, forkId, head) == ViewSimulationEndpoint(cfg', forkId', head')
    ensures cfg.account == cfg'.account && cfg.project == cfg'.project
    ensures forkId == forkId' && HeadText(head) == HeadText(head')
  {
    ViewSimulationSegments(cfg, forkId, head);
    ViewSimulationSegments(cfg', forkId', head');
  }
}
