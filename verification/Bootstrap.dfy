/**
 The installer's bootstrap file (apps/installer/src/install.ts, `writeBootstrapConfig`): what an
 install writes is merged from the canonical and the legacy file it finds, over any number of
 reinstalls. Paths, the URL parser, the date parser and the clock are parameters.
 */
module Bootstrap {
  import opened Common
  import opened Json
  import opened UrlText

  /** The keys the installer knows by name, and all others. */
  datatype Key =
    | BaseUrl | ApiBaseUrl | RequireSignin | BrandAppName | BrandLogoUrl | Prepared | ClaimLinks | WrittenAt | Handoff
    | Other(name: string)

  /** A JSON object by its keys; a key that is not there reads as `undefined`. */
  type Config = map<Key, Value>

  /** A file on disk; `config` is `None` when its text is not a JSON object. */
  datatype File = File(config: Option<Config>, mtime: int)

  /** A deployment's settings as they come from the environment, the build or an install link; an empty
      logo URL is none. */
  datatype Settings = Settings(appName: string, webUrl: string, apiUrl: string, logoUrl: string, requireSignin: bool)

  /** What `normalizeUrl` lets through. */
  predicate WebUrl(u: string) { StartsWith(u, "http://") || StartsWith(u, "https://") }

  /** The settings an install runs with: their URLs have been normalised. */
  type InstallerConfig = s: Settings | WebUrl(s.webUrl) && WebUrl(s.apiUrl) && (s.logoUrl != "" ==> WebUrl(s.logoUrl))
    witness Settings("", "http://", "http://", "", false)

  /** `new URL(text).origin` and `Date.parse`, where they succeed. */
  datatype Platform = Platform(origin: string -> Option<string>, date: string -> Option<int>)

  datatype Candidate = Candidate(config: Config, mtime: int)

  const HOSTED_ORIGIN := "https://work.juggle.im"

  function Get(config: Config, key: Key): Option<Value> { if key in config then Some(config[key]) else None }

  /** `left ?? right`. */
  function Coalesce(left: Option<Value>, right: Option<Value>): Option<Value> {
    if left.Some? && !left.value.Null? then left else right
  }

  // ---- Candidates -------------------------------------------------------------------------------

  predicate NonBlank(v: Option<Value>) { v.Some? && v.value.Str? && Trim(v.value.text, JsWhitespace) != "" }

  function DropSlashes(text: string): string {
    if text != "" && text[|text| - 1] == '/' then DropSlashes(text[..|text| - 1]) else text
  }

  function OriginOf(p: Platform, v: Option<Value>): string {
    if !NonBlank(v) then ""
    else
      var text := Trim(v.value.text, JsWhitespace);
      if p.origin(text).Some? then p.origin(text).value else DropSlashes(text)
  }

  /** `normalizeUrl`; None is the thrown error. */
  function NormalizeUrl(value: string, parses: string -> bool): (r: Option<string>)
    ensures r.Some? ==> WebUrl(r.value)
  {
    var trimmed := DropSlashes(Trim(value, JsWhitespace));
    if trimmed == "" || !WebUrl(trimmed) || !parses(trimmed) then None else Some(trimmed)
  }

  /** `toInstallerConfig`: settings whose URLs cannot be normalised are refused. */
  function ToInstallerConfig(raw: Settings, parses: string -> bool): Option<InstallerConfig> {
    var web, api := NormalizeUrl(raw.webUrl, parses), NormalizeUrl(raw.apiUrl, parses);
    var logo := if raw.logoUrl == "" then Some("") else NormalizeUrl(raw.logoUrl, parses);
    if web.None? || api.None? || logo.None? then None
    else Some(Settings(Trim(raw.appName, JsWhitespace), web.value, api.value, logo.value, raw.requireSignin))
  }

  lemma WebUrlIsNotBlank(u: string)
    requires WebUrl(u)
    ensures Trim(u, JsWhitespace) != ""
  {
    assert u[0] == 'h' && !JsWhitespace(u[0]);
    assert TrimStart(u, JsWhitespace) == 0;
    assert TrimEnd(u, JsWhitespace) > 0;
  }

  predicate Hosted(p: Platform, config: Config) { OriginOf(p, Get(config, BaseUrl)) == HOSTED_ORIGIN }

  /** `readBootstrapCandidate`. */
  function ReadCandidate(file: Option<File>): Option<Candidate> {
    if file.Some? && file.value.config.Some? && NonBlank(Get(file.value.config.value, BaseUrl))
    then Some(Candidate(file.value.config.value, file.value.mtime)) else None
  }

  function TimeOf(p: Platform, c: Candidate): int {
    var written := Get(c.config, WrittenAt);
    var text := if written.Some? && written.value.Str? then Trim(written.value.text, JsWhitespace) else "";
    if text != "" && p.date(text).Some? then p.date(text).value else c.mtime
  }

  function Class(p: Platform, c: Candidate): int { if Hosted(p, c.config) then 0 else 1 }

  /** `compareBootstrapCandidates`: the class decides, then the time. */
  function Compare(p: Platform, left: Candidate, right: Candidate): int {
    var difference := Class(p, left) - Class(p, right);
    if difference != 0 then difference else TimeOf(p, left) - TimeOf(p, right)
  }

  /** The comparator is a total preorder, which is what a sort needs of it. */
  lemma CompareIsTotalPreorder(p: Platform, a: Candidate, b: Candidate, c: Candidate)
    ensures Compare(p, a, a) == 0
    ensures Compare(p, a, b) > 0 <==> Compare(p, b, a) < 0
    ensures Compare(p, a, b) <= 0 && Compare(p, b, c) <= 0 ==> Compare(p, a, c) <= 0
    ensures Compare(p, a, b) == 0 && Compare(p, b, c) == 0 ==> Compare(p, a, c) == 0
  {
  }

  // ---- The sort -----------------------------------------------------------------------------------

  /** A stable insertion, greatest first. */
  function Insert(p: Platform, c: Candidate, sorted: seq<Candidate>): seq<Candidate> {
    if sorted == [] then [c]
    else if Compare(p, sorted[0], c) >= 0 then [sorted[0]] + Insert(p, c, sorted[1..])
    else [c] + sorted
  }

  function SortDescending(p: Platform, candidates: seq<Candidate>): seq<Candidate> {
    if candidates == [] then []
    else Insert(p, candidates[|candidates| - 1], SortDescending(p, candidates[..|candidates| - 1]))
  }

  ghost predicate FirstIsGreatest(p: Platform, sorted: seq<Candidate>) {
    forall i | 0 <= i < |sorted| :: Compare(p, sorted[0], sorted[i]) >= 0
  }

  /** Nothing after the first of an insertion exceeds both what was first and what was inserted. */
  lemma {:induction false} InsertedBelow(p: Platform, c: Candidate, sorted: seq<Candidate>, i: nat)
    requires sorted != [] && i < |Insert(p, c, sorted)|
    requires forall j | 0 <= j < |sorted| :: Compare(p, sorted[0], sorted[j]) >= 0
    ensures Compare(p, Insert(p, c, sorted)[0], Insert(p, c, sorted)[i]) >= 0
  {
    var all := Insert(p, c, sorted);
    var item := InsertedFrom(p, c, sorted, i);
    CompareIsTotalPreorder(p, item, sorted[0], c);
    CompareIsTotalPreorder(p, c, sorted[0], item);
  }

  lemma {:induction false} InsertedFrom(p: Platform, c: Candidate, sorted: seq<Candidate>, i: nat) returns (item: Candidate)
    requires i < |Insert(p, c, sorted)|
    ensures item == Insert(p, c, sorted)[i]
    ensures item == c || exists j :: 0 <= j < |sorted| && sorted[j] == item
  {
    item := Insert(p, c, sorted)[i];
    if sorted != [] && Compare(p, sorted[0], c) >= 0 {
      if i > 0 {
        var rest := InsertedFrom(p, c, sorted[1..], i - 1);
        if rest != c {
          var j :| 0 <= j < |sorted[1..]| && sorted[1..][j] == rest;
          assert sorted[j + 1] == item;
        }
      }
    } else if i > 0 {
      assert sorted[i - 1] == item;
    }
  }

  lemma InsertKeepsFirst(p: Platform, c: Candidate, sorted: seq<Candidate>)
    requires FirstIsGreatest(p, sorted)
    ensures FirstIsGreatest(p, Insert(p, c, sorted))
  {
    var all := Insert(p, c, sorted);
    forall i | 0 <= i < |all| ensures Compare(p, all[0], all[i]) >= 0 {
      if sorted != [] {
        InsertedBelow(p, c, sorted, i);
      }
    }
  }

  /** The sort puts a greatest candidate first. */
  lemma {:induction false} SortPicksGreatest(p: Platform, candidates: seq<Candidate>)
    ensures FirstIsGreatest(p, SortDescending(p, candidates))
  {
    if candidates != [] {
      var n := |candidates| - 1;
      SortPicksGreatest(p, candidates[..n]);
      InsertKeepsFirst(p, candidates[n], SortDescending(p, candidates[..n]));
    }
  }

  // ---- What is written ------------------------------------------------------------------------------

  /** The candidates an install finds; the legacy file counts only where it is another file. */
  datatype Found = Found(canonical: Option<Candidate>, legacy: Option<Candidate>)

  function Candidates(found: Found): seq<Candidate> {
    (if found.canonical.Some? then [found.canonical.value] else []) + (if found.legacy.Some? then [found.legacy.value] else [])
  }

  /** The installed candidate. */
  function Installed(p: Platform, found: Found): Option<Candidate> {
    var sorted := SortDescending(p, Candidates(found));
    if sorted == [] then None else Some(sorted[0])
  }

  function ConfigOf(c: Option<Candidate>): Config { if c.Some? then c.value.config else map[] }

  predicate Preserves(p: Platform, found: Found) {
    var installed := Installed(p, found);
    installed.Some? && !Hosted(p, installed.value.config)
  }

  /** State that outlives deployments: the canonical file's, or else the legacy file's. */
  function Carried(found: Found, key: Key): Option<Value> {
    Coalesce(Get(ConfigOf(found.canonical), key), Get(ConfigOf(found.legacy), key))
  }

  function Deployed(c: InstallerConfig, key: Key): Option<Value> {
    if key == BaseUrl then Some(Str(c.webUrl))
    else if key == ApiBaseUrl then Some(Str(c.apiUrl))
    else if key == RequireSignin then Some(Bool(c.requireSignin))
    else if key == BrandAppName then Some(Str(c.appName))
    else if key == BrandLogoUrl && c.logoUrl != "" then Some(Str(c.logoUrl))
    else None
  }

  /** Each key of the written file: the one-time grant is gone, the time is new, carried state comes from
      any candidate that has it, and the rest is the installed deployment's, or for a hosted default
      or a first install the installer's. */
  function Written(existing: Config, preserve: bool, found: Found, c: InstallerConfig, now: string, key: Key): Option<Value> {
    if key == Handoff then None
    else if key == WrittenAt then Some(Str(now))
    else if (key == Prepared || key == ClaimLinks) && Carried(found, key).Some? then Carried(found, key)
    else if !preserve && Deployed(c, key).Some? then Deployed(c, key)
    else Get(existing, key)
  }

  ghost predicate MergeOf(existing: Config, preserve: bool, found: Found, c: InstallerConfig, now: string, config: Config) {
    forall key :: Get(config, key) == Written(existing, preserve, found, c, now, key)
  }

  ghost predicate IsWritten(p: Platform, found: Found, c: InstallerConfig, now: string, config: Config) {
    MergeOf(ConfigOf(Installed(p, found)), Preserves(p, found), found, c, now, config)
  }

  /** With both files readable the legacy one is installed exactly when it is strictly greater. */
  lemma InstalledIs(p: Platform, found: Found)
    ensures Installed(p, found)
         == if found.canonical.None? then found.legacy
            else if found.legacy.Some? && Compare(p, found.legacy.value, found.canonical.value) > 0 then found.legacy
            else found.canonical
  {
    if found.canonical.Some? {
      var first := [found.canonical.value];
      assert first[..0] == [];
      assert SortDescending(p, first) == first;
      if found.legacy.Some? {
        var both := Candidates(found);
        assert both[..1] == first;
        assert SortDescending(p, both) == Insert(p, found.legacy.value, first);
      } else {
        assert Candidates(found) == first;
      }
    } else if found.legacy.Some? {
      var first := [found.legacy.value];
      assert Candidates(found) == first && first[..0] == [];
      assert SortDescending(p, first) == first;
    }
  }

  /** An organization's deployment is preferred to a hosted default, and the later one to an earlier. */
  lemma InstalledIsGreatest(p: Platform, found: Found)
    ensures Installed(p, found).None? <==> found.canonical.None? && found.legacy.None?
    ensures found.canonical.Some? ==> Compare(p, Installed(p, found).value, found.canonical.value) >= 0
    ensures found.legacy.Some? ==> Compare(p, Installed(p, found).value, found.legacy.value) >= 0
    ensures Preserves(p, found) <==>
              (found.canonical.Some? && !Hosted(p, found.canonical.value.config)) ||
              (found.legacy.Some? && !Hosted(p, found.legacy.value.config))
  {
    InstalledIs(p, found);
    if found.canonical.Some? && found.legacy.Some? {
      CompareIsTotalPreorder(p, found.canonical.value, found.legacy.value, found.canonical.value);
    }
  }

  function Set(config: Config, key: Key, value: Option<Value>): Config {
    if value.Some? then config[key := value.value] else config
  }

  // ---- Installs ------------------------------------------------------------------------------------

  /** The two files; they may be one and the same. */
  datatype Files = Files(target: Option<File>, legacy: Option<File>, samePath: bool)

  function Finds(s: Files): Found {
    Found(ReadCandidate(s.target), if s.samePath then None else ReadCandidate(s.legacy))
  }

  /** One install: whether the file can be written and the legacy file removed is up to the system. */
  datatype Install = Install(config: InstallerConfig, now: string, mtime: int, writable: bool, removable: bool)

  /** What one install does to the files. */
  ghost predicate Step(p: Platform, s: Files, i: Install, s': Files) {
    if !i.writable then s' == s
    else
      && s'.samePath == s.samePath
      && s'.legacy == (if s.samePath || !i.removable then s.legacy else None)
      && s'.target.Some? && s'.target.value.config.Some? && s'.target.value.mtime == i.mtime
      && IsWritten(p, Finds(s), i.config, i.now, s'.target.value.config.value)
  }

  /** Any number of installs. */
  ghost predicate Run(p: Platform, states: seq<Files>, installs: seq<Install>) {
    && |states| == |installs| + 1
    && forall k | 0 <= k < |installs| :: Step(p, states[k], installs[k], states[k + 1])
  }

  lemma InstalledReadable(p: Platform, s: Files)
    ensures Installed(p, Finds(s)).Some? ==> NonBlank(Get(Installed(p, Finds(s)).value.config, BaseUrl))
  {
    InstalledIs(p, Finds(s));
  }

  lemma ReadableMerge(existing: Config, preserve: bool, found: Found, c: InstallerConfig, now: string, config: Config)
    requires MergeOf(existing, preserve, found, c, now, config) && (preserve ==> NonBlank(Get(existing, BaseUrl)))
    requires Trim(c.webUrl, JsWhitespace) != ""
    ensures NonBlank(Get(config, BaseUrl))
  {
    assert Get(config, BaseUrl) == Written(existing, preserve, found, c, now, BaseUrl);
  }

  lemma WrittenAtKey(p: Platform, s: Files, i: Install, s': Files, key: Key)
    requires Step(p, s, i, s') && i.writable
    ensures Get(s'.target.value.config.value, key)
         == Written(ConfigOf(Installed(p, Finds(s))), Preserves(p, Finds(s)), Finds(s), i.config, i.now, key)
  {
  }

  /** The written file can always be read back by the next install. */
  lemma WrittenIsReadable(p: Platform, s: Files, i: Install, s': Files)
    requires Step(p, s, i, s') && i.writable
    ensures ReadCandidate(s'.target).Some?
  {
    WebUrlIsNotBlank(i.config.webUrl);
    InstalledReadable(p, s);
    ReadableMerge(ConfigOf(Installed(p, Finds(s))), Preserves(p, Finds(s)), Finds(s), i.config, i.now, s'.target.value.config.value);
  }

  lemma HandoffIsGone(p: Platform, s: Files, i: Install, s': Files)
    requires Step(p, s, i, s') && i.writable
    ensures Handoff !in s'.target.value.config.value
  {
    assert Get(s'.target.value.config.value, Handoff) == None;
  }

  /** An organization's deployment is installed in the canonical file, and no legacy file is left to
      compete with it. */
  predicate Settled(p: Platform, s: Files) {
    && Finds(s).canonical.Some? && !Hosted(p, Finds(s).canonical.value.config)
    && Finds(s).legacy.None?
  }

  predicate DeploymentKey(key: Key) { key != Prepared && key != ClaimLinks && key != WrittenAt && key != Handoff }

  /** The two files name the same deployment. */
  ghost predicate SameDeployment(a: Config, b: Config) {
    forall key | DeploymentKey(key) :: Get(a, key) == Get(b, key)
  }

  /** What an install preserves is the deployment of the greatest candidate it found. */
  lemma WritesInstalledDeployment(p: Platform, s: Files, i: Install, s': Files)
    requires Step(p, s, i, s') && i.writable && Preserves(p, Finds(s))
    ensures SameDeployment(s'.target.value.config.value, Installed(p, Finds(s)).value.config)
  {
    var found, next := Finds(s), s'.target.value.config.value;
    var existing := Installed(p, found).value.config;
    forall key | DeploymentKey(key) ensures Get(next, key) == Get(existing, key) {
      assert Get(next, key) == Written(existing, true, found, i.config, i.now, key);
    }
  }

  lemma StepKeepsDeployment(p: Platform, s: Files, i: Install, s': Files)
    requires Settled(p, s) && Step(p, s, i, s')
    ensures Settled(p, s')
    ensures SameDeployment(Finds(s').canonical.value.config, Finds(s).canonical.value.config)
  {
    if i.writable {
      InstalledIs(p, Finds(s));
      WritesInstalledDeployment(p, s, i, s');
      assert Get(s'.target.value.config.value, BaseUrl) == Get(Finds(s).canonical.value.config, BaseUrl);
    }
  }

  /** Once an organization's deployment is settled, no later install of anything changes it. */
  lemma {:induction false} DeploymentIsFixed(p: Platform, states: seq<Files>, installs: seq<Install>, k: nat)
    requires Run(p, states, installs) && Settled(p, states[0]) && k < |states|
    ensures Settled(p, states[k])
    ensures SameDeployment(Finds(states[k]).canonical.value.config, Finds(states[0]).canonical.value.config)
  {
    if k > 0 {
      DeploymentIsFixed(p, states, installs, k - 1);
      StepKeepsDeployment(p, states[k - 1], installs[k - 1], states[k]);
      var a, b, c := Finds(states[k]).canonical.value.config, Finds(states[k - 1]).canonical.value.config,
        Finds(states[0]).canonical.value.config;
      forall key | DeploymentKey(key) ensures Get(a, key) == Get(c, key) {
        assert Get(a, key) == Get(b, key);
      }
    }
  }

  /** An install settles the deployment it writes exactly if that is an organization's, once the legacy
      file is gone or the same. */
  lemma InstallSettles(p: Platform, s: Files, i: Install, s': Files)
    requires Step(p, s, i, s') && i.writable && (s.samePath || i.removable)
    ensures Settled(p, s') <==> !Hosted(p, s'.target.value.config.value)
  {
    WrittenIsReadable(p, s, i, s');
  }

  lemma WritesCarried(p: Platform, s: Files, i: Install, s': Files, key: Key)
    requires (key == Prepared || key == ClaimLinks) && Carried(Finds(s), key).Some?
    requires Step(p, s, i, s') && i.writable
    ensures Get(s'.target.value.config.value, key) == Carried(Finds(s), key)
  {
    WrittenAtKey(p, s, i, s', key);
  }

  /** Over any installs, prepared state and claim links persist, whether the legacy file can be removed or
      not. */
  lemma {:induction false} CarriedPersists(p: Platform, states: seq<Files>, installs: seq<Install>, key: Key, k: nat)
    requires key == Prepared || key == ClaimLinks
    requires Run(p, states, installs) && k < |states|
    requires Carried(Finds(states[0]), key).Some? && !Carried(Finds(states[0]), key).value.Null?
    ensures Carried(Finds(states[k]), key) == Carried(Finds(states[0]), key)
  {
    if k > 0 {
      CarriedPersists(p, states, installs, key, k - 1);
      if installs[k - 1].writable {
        WrittenIsReadable(p, states[k - 1], installs[k - 1], states[k]);
        WritesCarried(p, states[k - 1], installs[k - 1], states[k], key);
      }
    }
  }

  class Disk {
    const samePath: bool
    var target: Option<File>
    var legacy: Option<File>

    ghost function View(): Files
      reads this
    {
      Files(target, legacy, samePath)
    }

    /** `writeBootstrapConfig`. */
    method WriteBootstrapConfig(p: Platform, i: Install) returns (ok: bool)
      modifies `target, `legacy
      ensures ok == i.writable && Step(p, old(View()), i, View())
    {
      var found := Found(ReadCandidate(target), if samePath then None else ReadCandidate(legacy));
      var installed := Pick(p, found.canonical, found.legacy);
      var preserve := installed.Some? && !Hosted(p, installed.value.config);
      var next := Merge(ConfigOf(installed), preserve, found, i.config, i.now);
      if !i.writable {
        return false;
      }
      target := Some(File(Some(next), i.mtime));
      if !samePath && legacy.Some? && i.removable {
        legacy := None;
      }
      ok := true;
    }
  }

  /** `candidates.push(...)`, `sort`, and the first of the result. */
  method Pick(p: Platform, canonical: Option<Candidate>, legacy: Option<Candidate>) returns (installed: Option<Candidate>)
    ensures installed == Installed(p, Found(canonical, legacy))
  {
    var candidates := [];
    if canonical.Some? { candidates := candidates + [canonical.value]; }
    if legacy.Some? { candidates := candidates + [legacy.value]; }
    assert candidates == Candidates(Found(canonical, legacy));
    var sorted := SortDescending(p, candidates);
    installed := if sorted == [] then None else Some(sorted[0]);
  }

  method TakeDeployment(existing: Config, c: InstallerConfig) returns (next: Config)
    ensures forall key :: Get(next, key) == if Deployed(c, key).Some? then Deployed(c, key) else Get(existing, key)
  {
    next := existing[BaseUrl := Str(c.webUrl)][ApiBaseUrl := Str(c.apiUrl)]
                    [RequireSignin := Bool(c.requireSignin)][BrandAppName := Str(c.appName)];
    if c.logoUrl != "" { next := next[BrandLogoUrl := Str(c.logoUrl)]; }
  }

  /** The record that is written, by its parts. */
  method Merge(existing: Config, preserve: bool, found: Found, c: InstallerConfig, now: string) returns (next: Config)
    ensures MergeOf(existing, preserve, found, c, now, next)
  {
    next := existing;
    if !preserve {
      next := TakeDeployment(next, c);
    }
    ghost var deployed := next;
    var prepared := Coalesce(Get(ConfigOf(found.canonical), Prepared), Get(ConfigOf(found.legacy), Prepared));
    var claimLinks := Coalesce(Get(ConfigOf(found.canonical), ClaimLinks), Get(ConfigOf(found.legacy), ClaimLinks));
    next := Set(Set(next, Prepared, prepared), ClaimLinks, claimLinks)[WrittenAt := Str(now)];
    next := next - {Handoff};
    forall key ensures Get(next, key) == Written(existing, preserve, found, c, now, key) {
      assert Get(deployed, key) == if !preserve && Deployed(c, key).Some? then Deployed(c, key) else Get(existing, key);
    }
  }
}
