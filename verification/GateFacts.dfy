/** What the permission gate lets pass, told by the configuration and the effects alone (packages/core/src/permissions.ts). */
module GateFacts {
  import opened Text
  import opened Permissions
  import opened Events

  // ----- commands -----

  /** What the rules are matched with. */
  function Asked(e: Effect): string
    requires e.Command?
  {
    if e.requested.Some? then e.requested.value else Join(e.command, " ")
  }

  /** Rule `i` decides the text: it matches, no other match is longer, and none before it is as long. */
  predicate Decides(rules: seq<CommandRule>, text: string, i: nat) {
    && i < |rules| && rules[i].prefix <= text
    && (forall j :: 0 <= j < |rules| && rules[j].prefix <= text ==> |rules[j].prefix| <= |rules[i].prefix|)
    && (forall j :: 0 <= j < i && rules[j].prefix <= text ==> |rules[j].prefix| < |rules[i].prefix|)
  }

  predicate Unruled(rules: seq<CommandRule>, text: string) {
    forall j :: 0 <= j < |rules| ==> !(rules[j].prefix <= text)
  }

  predicate Ruled(rules: seq<CommandRule>, text: string, action: Action) {
    exists i :: 0 <= i < |rules| && Decides(rules, text, i) && rules[i].action == action
  }

  /** The operating system confines commands in this mode. */
  predicate Contained(c: Config) {
    c.mode != FullAccess && (c.platform == "darwin" || c.platform == "linux") && c.broker(c.mode) == OsLevel
  }

  // ----- one effect -----

  /** What is permitted on its own terms, without asking. */
  predicate Permitted(c: Config, e: Effect, resolve: Resolver) {
    match e
    case FileWrite(path) =>
      c.mode == FullAccess ||
      (c.mode == WorkspaceWrite && resolve(path, if c.writableRoots == [] then [c.workspaceRoot] else c.writableRoots))
    case FileRead(path) => c.mode == FullAccess || resolve(path, [c.workspaceRoot] + c.writableRoots)
    case Network(host) => c.mode == FullAccess || host in c.allowedNetworkHosts
    case Command(_, _) =>
      Ruled(c.commandRules, Asked(e), RuleAllow) || (Unruled(c.commandRules, Asked(e)) && (c.mode == FullAccess || Contained(c)))
  }

  /** What a rule prohibits. */
  predicate Prohibited(c: Config, e: Effect) {
    e.Command? && Ruled(c.commandRules, Asked(e), RuleForbid)
  }

  lemma {:induction false} BestIs(rules: seq<CommandRule>, text: string, n: nat)
    requires n <= |rules|
    ensures match BestRule(rules, text, n)
            case None => Unruled(rules[..n], text)
            case Some(rule) => exists i :: 0 <= i < n && Decides(rules[..n], text, i) && rules[i] == rule
  {
    if n > 0 {
      BestIs(rules, text, n - 1);
      BestNext(rules, text, n);
    }
  }

  lemma BestNext(rules: seq<CommandRule>, text: string, n: nat)
    requires 0 < n <= |rules|
    requires match BestRule(rules, text, n - 1)
             case None => Unruled(rules[..n - 1], text)
             case Some(rule) => exists i :: 0 <= i < n - 1 && Decides(rules[..n - 1], text, i) && rules[i] == rule
    ensures match BestRule(rules, text, n)
            case None => Unruled(rules[..n], text)
            case Some(rule) => exists i :: 0 <= i < n && Decides(rules[..n], text, i) && rules[i] == rule
  {
    var last := rules[n - 1];
    assert forall j :: 0 <= j < n - 1 ==> rules[..n][j] == rules[..n - 1][j];
    assert rules[..n][n - 1] == last;
    if BestRule(rules, text, n - 1).Some? {
      var i :| 0 <= i < n - 1 && Decides(rules[..n - 1], text, i) && rules[i] == BestRule(rules, text, n - 1).value;
      if last.prefix <= text && |last.prefix| > |rules[i].prefix| {
        assert Decides(rules[..n], text, n - 1);
      } else {
        assert Decides(rules[..n], text, i);
      }
    } else if last.prefix <= text {
      assert Decides(rules[..n], text, n - 1);
    }
  }

  lemma DecidesOnce(rules: seq<CommandRule>, text: string, i: nat, j: nat)
    requires Decides(rules, text, i) && Decides(rules, text, j)
    ensures i == j
  {}

  /** Whether rules decide, and how, is what the best rule says. */
  lemma RuledIs(rules: seq<CommandRule>, text: string, action: Action)
    ensures var best := BestRule(rules, text, |rules|);
            && (best.None? <==> Unruled(rules, text))
            && (best.Some? && best.value.action == action <==> Ruled(rules, text, action))
  {
    BestIs(rules, text, |rules|);
    assert rules[..|rules|] == rules;
    var best := BestRule(rules, text, |rules|);
    if best.Some? {
      var i :| 0 <= i < |rules| && Decides(rules, text, i) && rules[i] == best.value;
      if Ruled(rules, text, action) {
        var j :| 0 <= j < |rules| && Decides(rules, text, j) && rules[j].action == action;
        DecidesOnce(rules, text, i, j);
      }
    }
  }

  lemma ContainedIs(c: Config)
    ensures EnforcementOf(c) == OsLevel <==> Contained(c)
  {}

  lemma CommandIs(c: Config, e: Effect, resolve: Resolver)
    requires e.Command?
    ensures Classify(c, e, resolve) == Allow <==> Permitted(c, e, resolve)
    ensures Classify(c, e, resolve).Forbid? <==> Prohibited(c, e)
  {
    RuledIs(c.commandRules, Asked(e), RuleAllow);
    RuledIs(c.commandRules, Asked(e), RuleForbid);
    ContainedIs(c);
  }

  lemma EffectIs(c: Config, e: Effect, resolve: Resolver)
    ensures Classify(c, e, resolve) == Allow <==> Permitted(c, e, resolve)
    ensures Classify(c, e, resolve).Forbid? <==> Prohibited(c, e)
  {
    match e {
      case Command(_, _) => CommandIs(c, e, resolve);
      case FileRead(_) =>
      case FileWrite(_) =>
      case Network(_) =>
    }
  }

  /** An effect passes without a question: nothing has to be asked about in this policy, and it is permitted. */
  predicate Unasked(c: Config, e: Effect, resolve: Resolver) {
    c.approvals != Untrusted && Permitted(c, e, resolve)
  }

  lemma UnaskedIs(c: Config, e: Effect, resolve: Resolver)
    requires !Prohibited(c, e)
    ensures NeedsPrompt(c, e, resolve) <==> !Unasked(c, e, resolve)
  {
    EffectIs(c, e, resolve);
  }

  // ----- requests -----

  predicate NoneProhibited(c: Config, request: Request) {
    forall e <- request.effects :: !Prohibited(c, e)
  }

  /** The effects that have to be asked about, in order. */
  function ToAsk(c: Config, effects: seq<Effect>, resolve: Resolver, allowed: set<string>): seq<Effect> {
    if effects == [] then []
    else
      var before, last := ToAsk(c, effects[..|effects| - 1], resolve, allowed), effects[|effects| - 1];
      if Unasked(c, last, resolve) || Signature(last) in allowed then before else before + [last]
  }

  lemma {:induction false} OutstandingAppend(c: Config, a: seq<Effect>, b: seq<Effect>, resolve: Resolver, allowed: set<string>)
    ensures Outstanding(c, a + b, resolve, allowed) == Outstanding(c, a, resolve, allowed) + Outstanding(c, b, resolve, allowed)
  {
    if a == [] {
      assert a + b == b;
    } else {
      assert (a + b)[1..] == a[1..] + b;
      OutstandingAppend(c, a[1..], b, resolve, allowed);
    }
  }

  lemma {:induction false} OutstandingIsToAsk(c: Config, effects: seq<Effect>, resolve: Resolver, allowed: set<string>)
    requires forall e <- effects :: !Prohibited(c, e)
    ensures Outstanding(c, effects, resolve, allowed) == ToAsk(c, effects, resolve, allowed)
  {
    if effects != [] {
      var front, last := effects[..|effects| - 1], effects[|effects| - 1];
      assert effects == front + [last] && last in effects;
      assert forall e <- front :: e in effects;
      OutstandingIsToAsk(c, front, resolve, allowed);
      OutstandingAppend(c, front, [last], resolve, allowed);
      UnaskedIs(c, last, resolve);
      assert Outstanding(c, [last][1..], resolve, allowed) == [];
    }
  }

  lemma NoneProhibitedIs(c: Config, request: Request)
    ensures NoneProhibited(c, request) <==> FirstForbidden(c, request.effects, request.resolve).None?
  {
    FirstForbiddenIs(c, request.effects, request.resolve);
    forall e <- request.effects ensures Classify(c, e, request.resolve).Forbid? <==> Prohibited(c, e) {
      EffectIs(c, e, request.resolve);
    }
  }

  /** A rule with this prefix prohibits the first effect that any rule prohibits. */
  ghost predicate FirstProhibited(c: Config, effects: seq<Effect>, prefix: string) {
    exists i: nat, j: nat ::
      && i < |effects| && effects[i].Command? && (forall k :: 0 <= k < i ==> !Prohibited(c, effects[k]))
      && Decides(c.commandRules, Asked(effects[i]), j) && c.commandRules[j] == CommandRule(prefix, RuleForbid)
  }

  lemma ProhibitedBy(c: Config, e: Effect, resolve: Resolver) returns (j: nat)
    requires Classify(c, e, resolve).Forbid?
    ensures e.Command? && Decides(c.commandRules, Asked(e), j) && c.commandRules[j] == CommandRule(Classify(c, e, resolve).prefix, RuleForbid)
  {
    BestIs(c.commandRules, Asked(e), |c.commandRules|);
    assert c.commandRules[..|c.commandRules|] == c.commandRules;
    var i :| 0 <= i < |c.commandRules| && Decides(c.commandRules, Asked(e), i)
             && c.commandRules[i] == BestRule(c.commandRules, Asked(e), |c.commandRules|).value;
    j := i;
  }

  lemma {:induction false} FirstProhibitedIs(c: Config, effects: seq<Effect>, resolve: Resolver)
    requires FirstForbidden(c, effects, resolve).Some?
    ensures FirstProhibited(c, effects, FirstForbidden(c, effects, resolve).value)
  {
    EffectIs(c, effects[0], resolve);
    if Classify(c, effects[0], resolve).Forbid? {
      var j := ProhibitedBy(c, effects[0], resolve);
    } else {
      FirstProhibitedIs(c, effects[1..], resolve);
      LaterProhibited(c, effects, FirstForbidden(c, effects, resolve).value);
    }
  }

  lemma LaterProhibited(c: Config, effects: seq<Effect>, prefix: string)
    requires effects != [] && !Prohibited(c, effects[0]) && FirstProhibited(c, effects[1..], prefix)
    ensures FirstProhibited(c, effects, prefix)
  {
    var rest := effects[1..];
    var i: nat, j: nat :| && i < |rest| && rest[i].Command? && (forall k :: 0 <= k < i ==> !Prohibited(c, rest[k]))
                          && Decides(c.commandRules, Asked(rest[i]), j) && c.commandRules[j] == CommandRule(prefix, RuleForbid);
    assert effects[i + 1] == rest[i];
    forall k | 0 <= k < i + 1 ensures !Prohibited(c, effects[k]) {
      if k > 0 {
        assert effects[k] == rest[k - 1];
      }
    }
  }

  /** What the user's answer to a question comes to. */
  function Answered(asked: seq<Effect>, response: Response, allowed: set<string>): Ruling {
    match response
    case AllowOnce => Ruling(Granted, Some(asked), allowed)
    case AllowSession => Ruling(Granted, Some(asked), allowed + (set e <- asked :: Signature(e)))
    case Deny(note) => Ruling(Refused(UserDenied(note), false), Some(asked), allowed)
    case Abort(note) => Ruling(Refused(UserAborted(note), true), Some(asked), allowed)
  }

  /** The ruling on any request, with what is remembered: a prohibited effect refuses it, for the first rule that does, and
      nobody is asked; when there is nothing to ask it is granted; otherwise it is refused under `never` or without a
      channel, and else the user is asked about exactly those effects, in order, and the answer decides. */
  lemma RulingIs(c: Config, request: Request, allowed: set<string>)
    ensures var r := Authorized(c, request, allowed);
            var asked := ToAsk(c, request.effects, request.resolve, allowed);
            if !NoneProhibited(c, request) then
              && r.authorization.Refused? && r == Ruling(Refused(r.authorization.reason, false), None, allowed)
              && r.authorization.reason.RuleForbids? && FirstProhibited(c, request.effects, r.authorization.reason.prefix)
            else if asked == [] then r == Ruling(Granted, None, allowed)
            else if c.approvals == Never then r == Ruling(Refused(NeverAsks, false), None, allowed)
            else if !c.channel then r == Ruling(Refused(NoChannel, false), None, allowed)
            else r == Answered(asked, request.response, allowed)
  {
    NoneProhibitedIs(c, request);
    if NoneProhibited(c, request) {
      OutstandingIsToAsk(c, request.effects, request.resolve, allowed);
    } else {
      FirstProhibitedIs(c, request.effects, request.resolve);
    }
  }

  /** An effect that passes without a question, or is remembered. */
  predicate Passes(c: Config, start: set<string>, requests: seq<Request>, n: nat, e: Effect)
    requires n < |requests|
  {
    && !Prohibited(c, e)
    && (Unasked(c, e, requests[n].resolve) || Signature(e) in start || AllowedBefore(c, start, requests, n, Signature(e)))
  }

  lemma {:induction false} NothingToAsk(c: Config, effects: seq<Effect>, resolve: Resolver, allowed: set<string>)
    ensures ToAsk(c, effects, resolve, allowed) == [] <==> forall e <- effects :: Unasked(c, e, resolve) || Signature(e) in allowed
  {
    if effects != [] {
      var front, last := effects[..|effects| - 1], effects[|effects| - 1];
      NothingToAsk(c, front, resolve, allowed);
      assert effects == front + [last];
    }
  }

  lemma MemoryHolds(c: Config, start: set<string>, requests: seq<Request>, n: nat, e: Effect)
    requires n < |requests|
    ensures Passes(c, start, requests, n, e)
       <==> !Prohibited(c, e) && (Unasked(c, e, requests[n].resolve) || Signature(e) in Memory(c, start, requests, n))
  {
    MemoryIs(c, start, requests, n, Signature(e));
  }

  /** Over every run of the gate, a request is granted without asking anybody if and only if each of its effects passes:
      it is permitted on its own terms in a policy that trusts those, or its signature was remembered at first or allowed
      for the session since; and no rule prohibits it. */
  lemma GrantedUnaskedIff(c: Config, start: set<string>, requests: seq<Request>, n: nat)
    requires n < |requests|
    ensures var r := RulingAt(c, start, requests, n);
            r.authorization.Granted? && r.asked.None? <==> forall e <- requests[n].effects :: Passes(c, start, requests, n, e)
  {
    var allowed := Memory(c, start, requests, n);
    RulingIs(c, requests[n], allowed);
    NothingToAsk(c, requests[n].effects, requests[n].resolve, allowed);
    forall e <- requests[n].effects
      ensures Passes(c, start, requests, n, e) <==> !Prohibited(c, e) && (Unasked(c, e, requests[n].resolve) || Signature(e) in allowed)
    {
      MemoryHolds(c, start, requests, n, e);
    }
  }

  /** It is granted at all if and only if no effect is prohibited and each passes, or the user, who can be asked, says yes. */
  lemma GrantMeansApproved(c: Config, start: set<string>, requests: seq<Request>, n: nat)
    requires n < |requests|
    ensures RulingAt(c, start, requests, n).authorization.Granted?
       <==> && NoneProhibited(c, requests[n])
            && ((forall e <- requests[n].effects :: Passes(c, start, requests, n, e))
                || (c.approvals != Never && c.channel && (requests[n].response.AllowOnce? || requests[n].response.AllowSession?)))
  {
    GrantedUnaskedIff(c, start, requests, n);
    RulingIs(c, requests[n], Memory(c, start, requests, n));
  }

  /** Under `never` nobody is asked, nothing new is remembered, and a request is granted exactly when each of its effects
      passes. */
  lemma NeverRefuses(c: Config, start: set<string>, requests: seq<Request>, n: nat)
    requires n < |requests| && c.approvals == Never
    ensures var ruling := RulingAt(c, start, requests, n);
            && ruling.asked.None? && ruling.allowed == start
            && (ruling.authorization.Granted? <==> forall e <- requests[n].effects :: Passes(c, start, requests, n, e))
  {
    NothingRemembered(c, start, requests, n);
    RulingIs(c, requests[n], start);
    GrantedUnaskedIff(c, start, requests, n);
  }

  // ----- signatures -----

  /** The path without the slashes that it ends in. */
  predicate Trimmed(path: string, r: string) {
    && r <= path && (r != "" ==> r[|r| - 1] != '/' && r[|r| - 1] != '\\')
    && forall k :: |r| <= k < |path| ==> path[k] == '/' || path[k] == '\\'
  }

  lemma {:induction false} NormalizeTrims(path: string)
    ensures Trimmed(path, Normalize(path))
  {
    if path != "" && (path[|path| - 1] == '/' || path[|path| - 1] == '\\') {
      NormalizeTrims(path[..|path| - 1]);
    }
  }

  /** The two paths differ in such slashes at most. */
  ghost predicate SamePath(p: string, q: string) {
    exists r :: Trimmed(p, r) && Trimmed(q, r)
  }

  lemma TrimmedOnce(path: string, r: string, s: string)
    requires Trimmed(path, r) && Trimmed(path, s)
    ensures r == s
  {
    assert r != "" ==> path[|r| - 1] == r[|r| - 1];
    assert s != "" ==> path[|s| - 1] == s[|s| - 1];
  }

  lemma SamePathIff(p: string, q: string)
    ensures SamePath(p, q) <==> Normalize(p) == Normalize(q)
  {
    NormalizeTrims(p);
    NormalizeTrims(q);
    if r :| Trimmed(p, r) && Trimmed(q, r) {
      TrimmedOnce(p, r, Normalize(p));
      TrimmedOnce(q, r, Normalize(q));
    }
  }

  /** What an approval of the one is an approval of the other for: the words of a command, put together with blanks; a path
      up to slashes at its end, for reading or for writing; a host. */
  ghost predicate Alike(a: Effect, b: Effect) {
    match (a, b)
    case (Command(x, _), Command(y, _)) => Join(x, " ") == Join(y, " ")
    case (FileRead(p), FileRead(q)) => SamePath(p, q)
    case (FileWrite(p), FileWrite(q)) => SamePath(p, q)
    case (Network(h), Network(k)) => h == k
    case _ => false
  }

  function Tag(e: Effect): string {
    match e
    case Command(_, _) => "command:"
    case FileRead(_) => "file-read:"
    case FileWrite(_) => "file-write:"
    case Network(_) => "network:"
  }

  function Target(e: Effect): string {
    match e
    case Command(command, _) => Join(command, " ")
    case FileRead(path) => Normalize(path)
    case FileWrite(path) => Normalize(path)
    case Network(host) => host
  }

  lemma TagsDiffer(a: Effect, b: Effect)
    requires Tag(a) + Target(a) == Tag(b) + Target(b)
    ensures Tag(a) == Tag(b) && Target(a) == Target(b)
  {
    var s := Tag(a) + Target(a);
    assert s[0] == Tag(a)[0] == Tag(b)[0];
    assert s[5] == Tag(a)[5] == Tag(b)[5];
    DropPrefix(Tag(a), Target(a));
    DropPrefix(Tag(b), Target(b));
  }

  /** Two effects share a signature exactly when they are alike. */
  lemma SignatureIff(a: Effect, b: Effect)
    ensures Signature(a) == Signature(b) <==> Alike(a, b)
  {
    assert Signature(a) == Tag(a) + Target(a) && Signature(b) == Tag(b) + Target(b);
    if Signature(a) == Signature(b) {
      TagsDiffer(a, b);
    }
    match (a, b) {
      case (FileRead(p), FileRead(q)) => SamePathIff(p, q);
      case (FileWrite(p), FileWrite(q)) => SamePathIff(p, q);
      case _ =>
    }
  }

  /** A grant lets its tool do exactly what is like a declared effect of the same kind; if the grant was given in a run of
      the gate, no rule prohibits that effect, and it passes, or the user was asked and said yes. */
  lemma OperationIsAuthorized(c: Config, start: set<string>, requests: seq<Request>, n: nat, op: Operation)
    requires n < |requests|
    ensures Permits(requests[n].effects, op) <==> exists e <- requests[n].effects :: Alike(e, AsEffect(op))
    ensures RulingAt(c, start, requests, n).authorization.Granted? && Permits(requests[n].effects, op) ==>
              exists e <- requests[n].effects ::
                && Alike(e, AsEffect(op)) && !Prohibited(c, e)
                && (Passes(c, start, requests, n, e) || requests[n].response.AllowOnce? || requests[n].response.AllowSession?)
  {
    PermitsIff(requests[n].effects, op);
    GrantMeansApproved(c, start, requests, n);
  }

  lemma PermitsIff(effects: seq<Effect>, op: Operation)
    ensures Permits(effects, op) <==> exists e <- effects :: Alike(e, AsEffect(op))
  {
    match op {
      case Exec(command) =>
      case ReadFile(path) =>
        forall e <- effects | e.FileRead? ensures SamePath(e.path, path) <==> Normalize(e.path) == Normalize(path) {
          SamePathIff(e.path, path);
        }
      case WriteFile(path) =>
        forall e <- effects | e.FileWrite? ensures SamePath(e.path, path) <==> Normalize(e.path) == Normalize(path) {
          SamePathIff(e.path, path);
        }
    }
  }

  /** Commands whose words hold no blank share one only when they are the same. */
  lemma PlainCommandsDiffer(x: seq<string>, y: seq<string>)
    requires x != [] && y != [] && (forall w <- x :: ' ' !in w) && (forall w <- y :: ' ' !in w)
    ensures Signature(Command(x, None)) == Signature(Command(y, None)) <==> x == y
  {
    SignatureIff(Command(x, None), Command(y, None));
    SplitJoin(x, ' ');
    SplitJoin(y, ' ');
  }

  /** Others can: an approval of the one is one of the other. */
  lemma WordsRunTogether(x: seq<string>, y: seq<string>)
    requires x == ["rm", "a b"] && y == ["rm", "a", "b"]
    ensures x != y && Signature(Command(x, None)) == Signature(Command(y, None))
  {
    JoinCons("rm", ["a b"], " ");
    JoinCons("rm", ["a", "b"], " ");
    JoinCons("a", ["b"], " ");
    assert ["rm"] + ["a b"] == x && ["rm"] + ["a", "b"] == y && ["a"] + ["b"] == ["a", "b"];
    assert Join(["a b"], " ") == "a b" && Join(["b"], " ") == "b";
    assert "a" + (" " + "b") == "a b";
  }
}
