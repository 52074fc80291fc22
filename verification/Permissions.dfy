/** The permission gate (packages/core/src/permissions.ts). Whether a path lies within roots is what the
    file system answers, a parameter of each request, as is what the user answers when asked. */
module Permissions {
  import opened Text
  import opened Events

  datatype Mode = ReadOnly | WorkspaceWrite | FullAccess
  datatype Policy = Untrusted | OnRequest | Never
  datatype Enforcement = OsLevel | GateOnly | NotApplicable
  datatype Action = RuleAllow | RulePrompt | RuleForbid
  datatype CommandRule = CommandRule(prefix: string, action: Action)

  datatype Config = Config(
    workspaceRoot: string, mode: Mode, writableRoots: seq<string>, allowedNetworkHosts: seq<string>, commandRules: seq<CommandRule>,
    approvals: Policy, platform: string, broker: Mode -> Enforcement, channel: bool)

  datatype Effect =
    | Command(command: seq<string>, requested: Option<string>)
    | FileRead(path: string)
    | FileWrite(path: string)
    | Network(host: string)

  datatype Verdict = Allow | Prompt | Forbid(prefix: string)

  datatype Response = AllowOnce | AllowSession | Deny(note: Option<string>) | Abort(note: Option<string>)

  type Resolver = (string, seq<string>) -> bool

  datatype Request = Request(effects: seq<Effect>, resolve: Resolver, response: Response)

  datatype Authorization = Granted | Refused(reason: Reason, abort: bool)

  /** What one call of the gate comes to: the authorization, what the user was asked about, if anything,
      and what is remembered for the session. */
  datatype Ruling = Ruling(authorization: Authorization, asked: Option<seq<Effect>>, allowed: set<string>)

  // ----- command rules -----

  predicate Applies(rule: CommandRule, command: string) {
    rule.prefix <= command
  }

  function BestRule(rules: seq<CommandRule>, command: string, n: nat): Option<CommandRule>
    requires n <= |rules|
  {
    if n == 0 then None
    else
      var best := BestRule(rules, command, n - 1);
      if !Applies(rules[n - 1], command) then best
      else if best.None? || |rules[n - 1].prefix| > |best.value.prefix| then Some(rules[n - 1])
      else best
  }

  method MatchCommandRule(rules: seq<CommandRule>, command: string) returns (best: Option<CommandRule>)
    ensures best == BestRule(rules, command, |rules|)
  {
    best := None;
    for i := 0 to |rules|
      invariant best == BestRule(rules, command, i)
    {
      if !(rules[i].prefix <= command) {
        continue;
      }
      if best.None? || |rules[i].prefix| > |best.value.prefix| {
        best := Some(rules[i]);
      }
    }
  }

  /** The longest of the prefixes that match. */
  lemma {:induction false} BestRuleIs(rules: seq<CommandRule>, command: string, n: nat)
    requires n <= |rules|
    ensures var best := BestRule(rules, command, n);
            && (best.Some? ==> best.value in rules && Applies(best.value, command))
            && forall i :: 0 <= i < n && Applies(rules[i], command) ==> best.Some? && |rules[i].prefix| <= |best.value.prefix|
  {
    if n > 0 {
      BestRuleIs(rules, command, n - 1);
    }
  }

  predicate DistinctPrefixes(rules: seq<CommandRule>) {
    forall r, s :: r in rules && s in rules && r.prefix == s.prefix ==> r == s
  }

  /** The rule chosen does not depend on the order of the rules. */
  lemma RuleOrderIrrelevant(rules: seq<CommandRule>, others: seq<CommandRule>, command: string)
    requires DistinctPrefixes(rules) && forall r :: r in rules <==> r in others
    ensures BestRule(rules, command, |rules|) == BestRule(others, command, |others|)
  {
    BestRuleIs(rules, command, |rules|);
    BestRuleIs(others, command, |others|);
    var a, b := BestRule(rules, command, |rules|), BestRule(others, command, |others|);
    if a.Some? {
      assert a.value in others;
    }
    if b.Some? {
      assert b.value in rules;
    }
    if a.Some? && b.Some? {
      SamePrefix(a.value.prefix, b.value.prefix, command);
    }
  }

  lemma SamePrefix(a: string, b: string, command: string)
    requires a <= command && b <= command && |a| == |b|
    ensures a == b
  {
    assert a == command[..|a|] && b == command[..|b|];
  }

  // ----- one effect -----

  function SandboxEnforcement(platform: string, mode: Mode): Enforcement {
    if mode == FullAccess then NotApplicable
    else if platform == "darwin" || platform == "linux" then OsLevel
    else GateOnly
  }

  /** The platform could contain a command; the broker, asked about the mode, decides whether it does. */
  function EnforcementOf(c: Config): Enforcement {
    if SandboxEnforcement(c.platform, c.mode) != OsLevel then SandboxEnforcement(c.platform, c.mode) else c.broker(c.mode)
  }

  function WritableRoots(c: Config): seq<string> {
    if |c.writableRoots| > 0 then c.writableRoots else [c.workspaceRoot]
  }

  /** What the rules are matched with: the command as the model asked for it. */
  function Requested(e: Effect): string
    requires e.Command?
  {
    match e.requested
    case Some(r) => r
    case None => Join(e.command, " ")
  }

  function ClassifyCommand(c: Config, e: Effect): Verdict
    requires e.Command?
  {
    match BestRule(c.commandRules, Requested(e), |c.commandRules|)
    case Some(rule) => (match rule.action case RuleForbid => Forbid(rule.prefix) case RuleAllow => Allow case RulePrompt => Prompt)
    case None => if c.mode == FullAccess || EnforcementOf(c) == OsLevel then Allow else Prompt
  }

  function Classify(c: Config, e: Effect, resolve: Resolver): Verdict {
    match e
    case Command(_, _) => ClassifyCommand(c, e)
    case FileRead(path) => if c.mode == FullAccess || resolve(path, [c.workspaceRoot] + c.writableRoots) then Allow else Prompt
    case FileWrite(path) =>
      if c.mode == FullAccess then Allow
      else if c.mode == ReadOnly then Prompt
      else if resolve(path, WritableRoots(c)) then Allow else Prompt
    case Network(host) => if c.mode == FullAccess || host in c.allowedNetworkHosts then Allow else Prompt
  }

  /** The path without the slashes it ends in. */
  function Normalize(path: string): string {
    if path != "" && (path[|path| - 1] == '/' || path[|path| - 1] == '\\') then Normalize(path[..|path| - 1]) else path
  }

  function Signature(e: Effect): string {
    match e
    case Command(command, _) => "command:" + Join(command, " ")
    case FileRead(path) => "file-read:" + Normalize(path)
    case FileWrite(path) => "file-write:" + Normalize(path)
    case Network(host) => "network:" + host
  }

  /** A rule that forbids is absolute: an effect is forbidden exactly when it is a command whose best rule
      says so, in every mode and under every policy. */
  lemma ForbidBeatsEveryMode(c: Config, e: Effect, resolve: Resolver, mode: Mode, approvals: Policy)
    ensures Classify(c, e, resolve).Forbid? <==>
              && e.Command?
              && var best := BestRule(c.commandRules, Requested(e), |c.commandRules|);
                 best.Some? && best.value.action == RuleForbid
    ensures Classify(c, e, resolve).Forbid? ==> Classify(c.(mode := mode, approvals := approvals), e, resolve) == Classify(c, e, resolve)
  {}

  function Width(mode: Mode): nat {
    match mode
    case ReadOnly => 0
    case WorkspaceWrite => 1
    case FullAccess => 2
  }

  /** Commands that are contained stay so in the wider mode, or that has no need to contain them. */
  predicate StaysContained(c: Config, mode: Mode) {
    mode == FullAccess || (EnforcementOf(c) == OsLevel ==> EnforcementOf(c.(mode := mode)) == OsLevel)
  }

  predicate NoRule(c: Config, e: Effect) {
    e.Command? && BestRule(c.commandRules, Requested(e), |c.commandRules|).None?
  }

  /** What was allowed without asking is allowed in a wider mode, unless it is a command without a rule and the broker
      contains commands in the narrower mode only. */
  lemma WideningKeepsAllowed(c: Config, e: Effect, resolve: Resolver, mode: Mode)
    requires Width(c.mode) <= Width(mode) && Classify(c, e, resolve) == Allow
    ensures Classify(c.(mode := mode), e, resolve) == Allow <==> !NoRule(c, e) || StaysContained(c, mode)
  {
    if e.Command? {
      var wider := c.(mode := mode);
      assert BestRule(wider.commandRules, Requested(e), |wider.commandRules|) == BestRule(c.commandRules, Requested(e), |c.commandRules|);
    }
  }

  /** A rule for every command. */
  predicate RulesAll(c: Config) {
    exists rule <- c.commandRules :: rule.prefix == ""
  }

  /** Widening takes nothing away if and only if commands stay contained or a rule decides them all. */
  lemma WideningIsSafeIff(c: Config, mode: Mode)
    requires Width(c.mode) <= Width(mode)
    ensures (forall e, resolve | Classify(c, e, resolve) == Allow :: Classify(c.(mode := mode), e, resolve) == Allow)
       <==> StaysContained(c, mode) || RulesAll(c)
  {
    var e, resolve := Command([], None), (path: string, roots: seq<string>) => false;
    BestRuleIs(c.commandRules, "", |c.commandRules|);
    if !RulesAll(c) && !StaysContained(c, mode) {
      assert Requested(e) == "" && NoRule(c, e) && Classify(c, e, resolve) == Allow;
      WideningKeepsAllowed(c, e, resolve, mode);
    }
    forall e, resolve | (StaysContained(c, mode) || RulesAll(c)) && Classify(c, e, resolve) == Allow
      ensures Classify(c.(mode := mode), e, resolve) == Allow
    {
      WideningKeepsAllowed(c, e, resolve, mode);
      if e.Command? {
        BestRuleIs(c.commandRules, Requested(e), |c.commandRules|);
        assert forall rule <- c.commandRules :: rule.prefix == "" ==> Applies(rule, Requested(e));
      }
    }
  }

  /** A broker that contains commands only where nothing may be written. */
  lemma WideningCanLose(c: Config, resolve: Resolver)
    requires c.mode == ReadOnly && c.platform == "linux" && c.commandRules == []
    requires c.broker(ReadOnly) == OsLevel && c.broker(WorkspaceWrite) == GateOnly
    ensures Classify(c, Command(["ls"], None), resolve) == Allow
    ensures Classify(c.(mode := WorkspaceWrite), Command(["ls"], None), resolve) == Prompt
  {}

  // ----- one request -----

  predicate NeedsPrompt(c: Config, e: Effect, resolve: Resolver) {
    c.approvals == Untrusted || Classify(c, e, resolve) == Prompt
  }

  function FirstForbidden(c: Config, effects: seq<Effect>, resolve: Resolver): Option<string> {
    if effects == [] then None
    else match Classify(c, effects[0], resolve)
      case Forbid(prefix) => Some(prefix)
      case _ => FirstForbidden(c, effects[1..], resolve)
  }

  /** The effects to ask about: those that need it and are not remembered. */
  function Outstanding(c: Config, effects: seq<Effect>, resolve: Resolver, allowed: set<string>): seq<Effect> {
    if effects == [] then []
    else
      var rest := Outstanding(c, effects[1..], resolve, allowed);
      if NeedsPrompt(c, effects[0], resolve) && Signature(effects[0]) !in allowed then [effects[0]] + rest else rest
  }

  function Signatures(effects: seq<Effect>): set<string> {
    set e <- effects :: Signature(e)
  }

  /** What the user's answer decides. */
  function Decided(outstanding: seq<Effect>, response: Response, allowed: set<string>): Ruling {
    match response
    case AllowSession => Ruling(Granted, Some(outstanding), allowed + Signatures(outstanding))
    case AllowOnce => Ruling(Granted, Some(outstanding), allowed)
    case Deny(note) => Ruling(Refused(UserDenied(note), false), Some(outstanding), allowed)
    case Abort(note) => Ruling(Refused(UserAborted(note), true), Some(outstanding), allowed)
  }

  function Approval(c: Config, outstanding: seq<Effect>, response: Response, allowed: set<string>): Ruling {
    if outstanding == [] then Ruling(Granted, None, allowed)
    else if c.approvals == Never then Ruling(Refused(NeverAsks, false), None, allowed)
    else if !c.channel then Ruling(Refused(NoChannel, false), None, allowed)
    else Decided(outstanding, response, allowed)
  }

  function Authorized(c: Config, request: Request, allowed: set<string>): Ruling {
    match FirstForbidden(c, request.effects, request.resolve)
    case Some(prefix) => Ruling(Refused(RuleForbids(prefix), false), None, allowed)
    case None => Approval(c, Outstanding(c, request.effects, request.resolve, allowed), request.response, allowed)
  }

  class PermissionGate {
    const config: Config
    var sessionAllowed: set<string>

    constructor (config: Config)
      ensures this.config == config && sessionAllowed == {}
    {
      this.config, sessionAllowed := config, {};
    }

    method Authorize(request: Request) returns (r: Ruling)
      modifies this
      ensures r == Authorized(config, request, old(sessionAllowed)) && sessionAllowed == r.allowed
    {
      var forbidden := FirstForbidden(config, request.effects, request.resolve);
      if forbidden.Some? {
        return Ruling(Refused(RuleForbids(forbidden.value), false), None, sessionAllowed);
      }
      r := SeekApproval(Outstanding(config, request.effects, request.resolve, sessionAllowed), request.response);
    }

    method SeekApproval(outstanding: seq<Effect>, response: Response) returns (r: Ruling)
      modifies this
      ensures r == Approval(config, outstanding, response, old(sessionAllowed)) && sessionAllowed == r.allowed
    {
      if |outstanding| == 0 {
        return Ruling(Granted, None, sessionAllowed);
      }
      if config.approvals == Never {
        return Ruling(Refused(NeverAsks, false), None, sessionAllowed);
      }
      if !config.channel {
        return Ruling(Refused(NoChannel, false), None, sessionAllowed);
      }
      r := ApplyDecision(outstanding, response);
    }

    method ApplyDecision(outstanding: seq<Effect>, response: Response) returns (r: Ruling)
      modifies this
      ensures r == Decided(outstanding, response, old(sessionAllowed)) && sessionAllowed == r.allowed
    {
      var authorization;
      match response {
        case AllowSession =>
          for i := 0 to |outstanding|
            invariant sessionAllowed == old(sessionAllowed) + Signatures(outstanding[..i])
          {
            assert outstanding[..i + 1] == outstanding[..i] + [outstanding[i]];
            sessionAllowed := sessionAllowed + {Signature(outstanding[i])};
          }
          assert outstanding[..|outstanding|] == outstanding;
          authorization := Granted;
        case AllowOnce =>
          authorization := Granted;
        case Deny(note) =>
          authorization := Refused(UserDenied(note), false);
        case Abort(note) =>
          authorization := Refused(UserAborted(note), true);
      }
      r := Ruling(authorization, Some(outstanding), sessionAllowed);
    }
  }

  // ----- every run of the gate -----

  /** What a gate that remembers `start` remembers after the first `n` requests. */
  function Memory(c: Config, start: set<string>, requests: seq<Request>, n: nat): set<string>
    requires n <= |requests|
  {
    if n == 0 then start else Authorized(c, requests[n - 1], Memory(c, start, requests, n - 1)).allowed
  }

  function RulingAt(c: Config, start: set<string>, requests: seq<Request>, n: nat): Ruling
    requires n < |requests|
  {
    Authorized(c, requests[n], Memory(c, start, requests, n))
  }

  lemma {:induction false} FirstForbiddenIs(c: Config, effects: seq<Effect>, resolve: Resolver)
    ensures FirstForbidden(c, effects, resolve).None? <==> forall e <- effects :: !Classify(c, e, resolve).Forbid?
  {
    if effects != [] {
      FirstForbiddenIs(c, effects[1..], resolve);
      assert forall e <- effects :: e == effects[0] || e in effects[1..];
      assert forall e <- effects[1..] :: e in effects;
      assert effects[0] in effects;
    }
  }

  /** The user was asked about an effect of this signature in request `m`, and allowed it for the session. */
  predicate AllowedForSession(c: Config, start: set<string>, requests: seq<Request>, m: nat, signature: string)
    requires m < |requests|
  {
    && requests[m].response.AllowSession?
    && RulingAt(c, start, requests, m).asked.Some?
    && signature in Signatures(RulingAt(c, start, requests, m).asked.value)
  }

  /** That happened in one of the first `n` requests. */
  predicate AllowedBefore(c: Config, start: set<string>, requests: seq<Request>, n: nat, signature: string)
    requires n <= |requests|
  {
    n > 0 && (AllowedBefore(c, start, requests, n - 1, signature) || AllowedForSession(c, start, requests, n - 1, signature))
  }

  /** The memory is what was there and what the user allowed for the session, and nothing else. */
  lemma {:induction false} MemoryIs(c: Config, start: set<string>, requests: seq<Request>, n: nat, signature: string)
    requires n <= |requests|
    ensures signature in Memory(c, start, requests, n) <==> signature in start || AllowedBefore(c, start, requests, n, signature)
  {
    if n > 0 {
      MemoryIs(c, start, requests, n - 1, signature);
      MemoryStep(c, start, requests, n - 1, signature);
    }
  }

  lemma MemoryStep(c: Config, start: set<string>, requests: seq<Request>, n: nat, signature: string)
    requires n < |requests|
    ensures signature in Memory(c, start, requests, n + 1) <==> signature in Memory(c, start, requests, n) || AllowedForSession(c, start, requests, n, signature)
  {
    MemoryGrows(c, requests[n], Memory(c, start, requests, n), signature);
  }

  lemma MemoryGrows(c: Config, request: Request, allowed: set<string>, signature: string)
    ensures var r := Authorized(c, request, allowed);
            signature in r.allowed <==> signature in allowed
                                        || (request.response.AllowSession? && r.asked.Some? && signature in Signatures(r.asked.value))
  {}

  lemma {:induction false} NothingRemembered(c: Config, start: set<string>, requests: seq<Request>, n: nat)
    requires n <= |requests| && c.approvals == Never
    ensures Memory(c, start, requests, n) == start
  {
    if n > 0 {
      NothingRemembered(c, start, requests, n - 1);
    }
  }

  // ----- what a grant lets its tool do -----

  datatype Operation = Exec(command: seq<string>) | ReadFile(path: string) | WriteFile(path: string)

  predicate Permits(effects: seq<Effect>, op: Operation) {
    match op
    case Exec(command) => exists e <- effects :: e.Command? && Join(e.command, " ") == Join(command, " ")
    case ReadFile(path) => exists e <- effects :: e.FileRead? && Normalize(e.path) == Normalize(path)
    case WriteFile(path) => exists e <- effects :: e.FileWrite? && Normalize(e.path) == Normalize(path)
  }

  function AsEffect(op: Operation): Effect {
    match op
    case Exec(command) => Command(command, None)
    case ReadFile(path) => FileRead(path)
    case WriteFile(path) => FileWrite(path)
  }
}
