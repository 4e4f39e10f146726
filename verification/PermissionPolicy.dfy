/** The user's trust policy beside the approval store: a reset that no later change undoes, and an
    "always" approval that authorizes nothing until both stores agree. */
module PermissionPolicy {
  import opened Results
  import opened Histories

  /** A point in time, in microseconds; clocks may jump either way. */
  type Time = int
  type Project = nat
  type Request = nat
  type Scope = nat

  /** A staged rule's id is made from its request's; the user may have written others by hand. */
  datatype RuleId = Of(request: Request) | ByHand(n: nat)
  datatype Rule = Rule(id: RuleId, project: Project, scope: Scope, allow: bool, created: Time,
                       expires: Option<Time>, revoked: Option<Time>, source: Option<Request>)
  datatype Settings = Settings(mode: nat, paths: nat, cutoff: Option<Time>)
  datatype Policy = Policy(revision: nat, projects: map<Project, Settings>, rules: seq<Rule>)

  datatype Choice = Once | ThisRun | Always | Deny
  datatype RequestStatus = Open | Approved | Denied
  datatype Asked = Asked(project: Project, scope: Scope, status: RequestStatus, choice: Option<Choice>,
                         rule: Option<RuleId>)
  datatype Grant = Grant(project: Project, scope: Scope, issued: Time, expires: Option<Time>, rule: Option<RuleId>,
                         revoked: bool, spent: bool)

  /** The grants a reset listed, and the policy revision it had loaded. */
  datatype Reading = Reading(project: Project, revision: nat, listed: seq<nat>)

  datatype World = World(policy: Policy, grants: map<nat, Grant>, requests: map<Request, Asked>,
                         resets: map<nat, Reading>)

  const DEFAULT := Settings(1, 0, None)

  function SettingsOf(policy: Policy, p: Project): Settings {
    if p in policy.projects then policy.projects[p] else DEFAULT
  }

  const MAX_RULES := 8192
  const MAX_PROJECTS := 1024

  /** The policy's validator takes at most 1024 projects. */
  predicate Room(policy: Policy, p: Project) {
    p in policy.projects || |policy.projects| < MAX_PROJECTS
  }

  /** Where the loop over the rules first meets an id; their number if it never does. */
  function Position(rules: seq<Rule>, id: RuleId): (k: nat)
    ensures k <= |rules| && (k < |rules| ==> rules[k].id == id) && forall i :: 0 <= i < k ==> rules[i].id != id
  {
    if rules == [] || rules[0].id == id then 0 else 1 + Position(rules[1..], id)
  }

  predicate Has(policy: Policy, id: RuleId) {
    Position(policy.rules, id) < |policy.rules|
  }

  function RuleAt(policy: Policy, id: RuleId): (rule: Rule)
    requires Has(policy, id)
    ensures rule in policy.rules && rule.id == id
  {
    policy.rules[Position(policy.rules, id)]
  }

  function Max(a: Time, b: Time): Time {
    if a < b then b else a
  }

  // ------------------------------------------------------------------ what each operation proposes

  /** `configure`: a new mode and scope keep the project's cutoff. */
  function Configured(policy: Policy, p: Project, mode: nat, paths: Option<nat>): Policy {
    var settings := Settings(mode, if paths.Some? then paths.value else SettingsOf(policy, p).paths,
                             if p in policy.projects then policy.projects[p].cutoff else None);
    policy.(projects := policy.projects[p := settings])
  }

  /** `stage_always_rule`: the rule already there, if it is unchanged and not revoked, or a new one. */
  function Staged(policy: Policy, r: Request, p: Project, scope: Scope, now: Time): Result<Policy> {
    if Has(policy, Of(r)) then
      if RuleAt(policy, Of(r)).scope == scope && RuleAt(policy, Of(r)).project == p
        && RuleAt(policy, Of(r)).revoked.None?
      then Ok(policy) else Rejected
    else if |policy.rules| >= MAX_RULES || !Room(policy, p) then Rejected
    else
      Ok(policy.(rules := policy.rules + [Rule(Of(r), p, scope, true, now, None, None, Some(r))],
                 projects := policy.projects[p := SettingsOf(policy, p)]))
  }

  /** `revoke` of a rule: a revocation may not precede the rule's creation. */
  function RuleRevoked(policy: Policy, id: RuleId, now: Time): Result<Policy> {
    if !Has(policy, id) then Rejected
    else if RuleAt(policy, id).revoked.Some? then Ok(policy)
    else if now < RuleAt(policy, id).created then Rejected
    else
      var k := Position(policy.rules, id);
      Ok(policy.(rules := policy.rules[k := policy.rules[k].(revoked := Some(now))]))
  }

  function Latest(grants: map<nat, Grant>, listed: seq<nat>, now: Time): (r: Time)
    ensures r >= now && forall g :: g in listed && g in grants ==> grants[g].issued <= r
  {
    if listed == [] then now
    else Max(Latest(grants, listed[1..], now), if listed[0] in grants then grants[listed[0]].issued else now)
  }

  function Cutoff(prior: Option<Time>, latest: Time): Time {
    match prior
    case None => latest
    case Some(c) => Max(latest, c + 1)
  }

  predicate Live(rule: Rule, p: Project) {
    rule.project == p && rule.revoked.None?
  }

  predicate LiveRuleOf(policy: Policy, p: Project, id: RuleId) {
    Has(policy, id) && Live(RuleAt(policy, id), p)
  }

  /** No live rule of the project was created after the clock's present. */
  predicate ClockReaches(policy: Policy, p: Project, clock: RuleId -> Time) {
    forall rule :: rule in policy.rules && Live(rule, p) ==> clock(rule.id) >= rule.created
  }

  function ResetRules(rules: seq<Rule>, p: Project, clock: RuleId -> Time): (r: seq<Rule>)
    ensures |r| == |rules|
  {
    seq(|rules|, i requires 0 <= i < |rules| =>
      if Live(rules[i], p) then rules[i].(revoked := Some(clock(rules[i].id))) else rules[i])
  }

  /** `reset`: every live rule of the project is revoked and the cutoff moves past every listed grant. The
      whole policy is refused when the clock is behind the creation of a live rule. */
  function ResetOf(policy: Policy, p: Project, latest: Time, clock: RuleId -> Time): Result<Policy> {
    if !ClockReaches(policy, p, clock) || !Room(policy, p) then Rejected
    else
      var cutoff := Cutoff(SettingsOf(policy, p).cutoff, latest);
      Ok(policy.(
        rules := ResetRules(policy.rules, p, clock),
        projects := policy.projects[p := SettingsOf(policy, p).(cutoff := Some(cutoff))]))
  }

  function Published(policy: Policy): Policy {
    policy.(revision := policy.revision + 1)
  }

  // ------------------------------------------------------------------ deciding

  /** `rule_is_active`: a rule from an approval counts only while the store records exactly that approval. */
  predicate RuleIsActive(w: World, id: RuleId, now: Time) {
    && Has(w.policy, id)
    && var rule := RuleAt(w.policy, id);
    && rule.revoked.None? && (rule.expires.None? || rule.expires.value > now)
    && (rule.source.Some? ==>
          && rule.source.value in w.requests
          && var asked := w.requests[rule.source.value];
          && asked.status == Approved && asked.choice == Some(Always) && asked.rule == Some(id)
          && asked.scope == rule.scope && asked.project == rule.project)
  }

  /** The part of `_grant_matches` that does not depend on the intent at hand. */
  predicate GrantIsLive(w: World, g: nat, now: Time) {
    && g in w.grants
    && var grant := w.grants[g];
    && !grant.revoked && !grant.spent && (grant.expires.None? || grant.expires.value > now)
    && !(grant.project in w.policy.projects && w.policy.projects[grant.project].cutoff.Some?
         && grant.issued <= w.policy.projects[grant.project].cutoff.value)
    && (grant.rule.Some? ==>
          RuleIsActive(w, grant.rule.value, now) && RuleAt(w.policy, grant.rule.value).created <= now)
  }

  // ------------------------------------------------------------------ the steps

  datatype Step =
    | Ask(r: Request, p: Project, scope: Scope)
    | Configure(p: Project, mode: nat, paths: Option<nat>)
    | Stage(r: Request, p: Project, scope: Scope, now: Time)
    | RevokeRule(id: RuleId, now: Time)
    | ReadForReset(reset: nat, p: Project, listed: seq<nat>)
    | Reset(reset: nat, now: Time, clock: RuleId -> Time)
    | Resolve(r: Request, choice: Choice, rule: Option<RuleId>, g: nat, now: Time, expires: Option<Time>)
    | RevokeGrant(g: nat)
    | Spend(g: nat)

  /** The listing read for a reset: every grant of the project at that moment. */
  predicate Lists(w: World, p: Project, listed: seq<nat>) {
    && (forall g :: g in w.grants && w.grants[g].project == p ==> g in listed)
    && forall g :: g in listed ==> g in w.grants && w.grants[g].project == p
  }

  predicate May(w: World, step: Step) {
    match step
    case Ask(r, p, scope) => r !in w.requests
    case Configure(p, mode, paths) => Room(w.policy, p)
    case Stage(r, p, scope, now) => Staged(w.policy, r, p, scope, now).Ok?
    case RevokeRule(id, now) => RuleRevoked(w.policy, id, now).Ok?
    case ReadForReset(reset, p, listed) => reset !in w.resets && Lists(w, p, listed)
    case Reset(reset, now, clock) =>
      && reset in w.resets && w.resets[reset].revision == w.policy.revision
      && ResetOf(w.policy, w.resets[reset].project, Latest(w.grants, w.resets[reset].listed, now), clock).Ok?
    case Resolve(r, choice, rule, g, now, expires) =>
      && r in w.requests && w.requests[r].status == Open && g !in w.grants
      && (choice == Always ==> rule == Some(Of(r)))
    case RevokeGrant(g) => g in w.grants
    case Spend(g) => g in w.grants
  }

  /** `resolve_approval`: an approval issues its grant in the same transaction. */
  function Resolved(w: World, r: Request, choice: Choice, rule: Option<RuleId>, g: nat, now: Time,
                    expires: Option<Time>): World
    requires r in w.requests
  {
    var asked := w.requests[r];
    if choice == Deny then w.(requests := w.requests[r := asked.(status := Denied, choice := Some(Deny))])
    else w.(requests := w.requests[r := asked.(status := Approved, choice := Some(choice), rule := rule)],
            grants := w.grants[g := Grant(asked.project, asked.scope, now, expires, rule, false, false)])
  }

  function Do(w: World, step: Step): World
    requires May(w, step)
  {
    match step
    case Ask(r, p, scope) => w.(requests := w.requests[r := Asked(p, scope, Open, None, None)])
    case Configure(p, mode, paths) => w.(policy := Published(Configured(w.policy, p, mode, paths)))
    case Stage(r, p, scope, now) =>
      var proposed := Staged(w.policy, r, p, scope, now).value;
      if proposed == w.policy then w else w.(policy := Published(proposed))
    case RevokeRule(id, now) =>
      var proposed := RuleRevoked(w.policy, id, now).value;
      if proposed == w.policy then w else w.(policy := Published(proposed))
    case ReadForReset(reset, p, listed) => w.(resets := w.resets[reset := Reading(p, w.policy.revision, listed)])
    case Reset(reset, now, clock) =>
      var reading := w.resets[reset];
      w.(policy := Published(ResetOf(w.policy, reading.project, Latest(w.grants, reading.listed, now), clock).value))
    case Resolve(r, choice, rule, g, now, expires) => Resolved(w, r, choice, rule, g, now, expires)
    case RevokeGrant(g) => w.(grants := w.grants[g := w.grants[g].(revoked := true)])
    case Spend(g) => w.(grants := w.grants[g := w.grants[g].(spent := true)])
  }

  ghost predicate Follows(w: World, next: World) {
    exists step :: May(w, step) && next == Do(w, step)
  }

  /** Rules written by hand carry no request and no id of one, and the file's validator allows no id twice. */
  predicate HandWritten(rules: seq<Rule>) {
    && (forall rule :: rule in rules ==> rule.id.ByHand? && rule.source.None?)
    && forall i, j :: 0 <= i < j < |rules| ==> rules[i].id != rules[j].id
  }

  /** Every world that configuring, staging, revoking, resetting, approving and using grants can pass
      through, from any policy the user wrote by hand and an empty store. */
  ghost predicate Run(history: seq<World>) {
    && history != [] && history[0].grants == map[] && history[0].requests == map[] && history[0].resets == map[]
    && HandWritten(history[0].policy.rules)
    && Steps(Follows, history)
  }

  // ------------------------------------------------------------------ what never goes back

  /** A project's cutoff, once set, is kept or moved later. */
  predicate CutoffKept(w: World, next: World, p: Project) {
    p in w.policy.projects ==>
      && p in next.policy.projects
      && (w.policy.projects[p].cutoff.Some? ==>
            next.policy.projects[p].cutoff.Some?
              && next.policy.projects[p].cutoff.value >= w.policy.projects[p].cutoff.value)
  }

  predicate RuleAged(was: Rule, now: Rule) {
    now == was.(revoked := now.revoked) && (was.revoked.Some? ==> now == was)
  }

  /** Rules are only appended and, once, revoked. */
  predicate RulesKept(was: seq<Rule>, now: seq<Rule>) {
    |was| <= |now| && forall k {:trigger now[k]} :: 0 <= k < |was| ==> RuleAged(was[k], now[k])
  }

  predicate RuleKept(w: World, next: World, id: RuleId) {
    Has(w.policy, id) ==> Has(next.policy, id) && RuleAged(RuleAt(w.policy, id), RuleAt(next.policy, id))
  }

  lemma PositionStays(was: seq<Rule>, now: seq<Rule>, id: RuleId)
    requires RulesKept(was, now) && Position(was, id) < |was|
    ensures Position(now, id) == Position(was, id)
  {
    assert forall k :: 0 <= k < |was| ==> now[k].id == was[k].id;
  }

  lemma RuleStays(w: World, next: World, id: RuleId)
    requires RulesKept(w.policy.rules, next.policy.rules)
    ensures RuleKept(w, next, id)
  {
    if Has(w.policy, id) {
      PositionStays(w.policy.rules, next.policy.rules, id);
    }
  }

  predicate GrantKept(w: World, next: World, g: nat) {
    g in w.grants ==>
      && g in next.grants
      && next.grants[g] == w.grants[g].(revoked := next.grants[g].revoked, spent := next.grants[g].spent)
      && (w.grants[g].revoked ==> next.grants[g].revoked) && (w.grants[g].spent ==> next.grants[g].spent)
  }

  predicate RequestKept(w: World, next: World, r: Request) {
    r in w.requests ==>
      && r in next.requests && next.requests[r].scope == w.requests[r].scope
      && next.requests[r].project == w.requests[r].project
      && (w.requests[r].status != Open ==> next.requests[r] == w.requests[r])
  }

  predicate Kept(w: World, next: World, p: Project, id: RuleId, g: nat, r: Request) {
    && CutoffKept(w, next, p) && RuleKept(w, next, id) && RulesKept(w.policy.rules, next.policy.rules)
    && GrantKept(w, next, g) && RequestKept(w, next, r)
    && w.policy.revision <= next.policy.revision
    && (w.policy.revision == next.policy.revision ==> next.policy == w.policy)
  }

  /** A published policy that keeps every cutoff and every rule keeps everything. */
  lemma PolicyStepKeeps(w: World, policy: Policy, p: Project, id: RuleId, g: nat, r: Request)
    requires CutoffKept(w, w.(policy := Published(policy)), p) && RulesKept(w.policy.rules, policy.rules)
    requires policy.revision == w.policy.revision
    ensures Kept(w, w.(policy := Published(policy)), p, id, g, r)
  {
    RuleStays(w, w.(policy := Published(policy)), id);
  }

  lemma ResetKeeps(w: World, project: Project, latest: Time, clock: RuleId -> Time, p: Project, id: RuleId, g: nat,
                   r: Request)
    requires ResetOf(w.policy, project, latest, clock).Ok?
    ensures Kept(w, w.(policy := Published(ResetOf(w.policy, project, latest, clock).value)), p, id, g, r)
  {
    ResetAges(w.policy.rules, project, clock);
    PolicyStepKeeps(w, ResetOf(w.policy, project, latest, clock).value, p, id, g, r);
  }

  lemma StageKeeps(w: World, request: Request, project: Project, scope: Scope, now: Time, p: Project, id: RuleId,
                   g: nat, r: Request)
    requires Staged(w.policy, request, project, scope, now).Ok?
    ensures Kept(w, w.(policy := Published(Staged(w.policy, request, project, scope, now).value)), p, id, g, r)
  {
    PolicyStepKeeps(w, Staged(w.policy, request, project, scope, now).value, p, id, g, r);
  }

  lemma RevokeKeeps(w: World, rule: RuleId, now: Time, p: Project, id: RuleId, g: nat, r: Request)
    requires RuleRevoked(w.policy, rule, now).Ok?
    ensures Kept(w, w.(policy := Published(RuleRevoked(w.policy, rule, now).value)), p, id, g, r)
  {
    PolicyStepKeeps(w, RuleRevoked(w.policy, rule, now).value, p, id, g, r);
  }

  lemma UnchangedKeeps(w: World, p: Project, id: RuleId, g: nat, r: Request)
    ensures Kept(w, w, p, id, g, r)
  {
  }

  lemma StoreStepKeeps(w: World, step: Step, p: Project, id: RuleId, g: nat, r: Request)
    requires May(w, step) && (step.Ask? || step.ReadForReset? || step.Resolve? || step.RevokeGrant? || step.Spend?)
    ensures Kept(w, Do(w, step), p, id, g, r)
  {
    assert Do(w, step).policy == w.policy;
  }

  lemma StepKeeps(w: World, step: Step, p: Project, id: RuleId, g: nat, r: Request)
    requires May(w, step)
    ensures Kept(w, Do(w, step), p, id, g, r)
  {
    match step
    case Configure(project, mode, paths) => PolicyStepKeeps(w, Configured(w.policy, project, mode, paths), p, id, g, r);
    case Stage(request, project, scope, now) =>
      UnchangedKeeps(w, p, id, g, r);
      StageKeeps(w, request, project, scope, now, p, id, g, r);
    case RevokeRule(rule, now) =>
      UnchangedKeeps(w, p, id, g, r);
      RevokeKeeps(w, rule, now, p, id, g, r);
    case Reset(reset, now, clock) =>
      ResetKeeps(w, w.resets[reset].project, Latest(w.grants, w.resets[reset].listed, now), clock, p, id, g, r);
    case _ => StoreStepKeeps(w, step, p, id, g, r);
  }

  lemma FollowingKeeps(w: World, next: World, p: Project, id: RuleId, g: nat, r: Request)
    requires Follows(w, next)
    ensures Kept(w, next, p, id, g, r)
  {
    var step :| May(w, step) && next == Do(w, step);
    StepKeeps(w, step, p, id, g, r);
  }

  lemma NextKeeps(history: seq<World>, i: nat, p: Project, id: RuleId, g: nat, r: Request)
    requires Run(history) && i + 1 < |history|
    ensures Kept(history[i], history[i + 1], p, id, g, r)
  {
    assert StepAt(Follows, history, i);
    FollowingKeeps(history[i], history[i + 1], p, id, g, r);
  }

  /** Cutoffs only move later, revoked rules stay revoked, resolved requests stay as resolved, and a
      policy revision names one policy. */
  lemma {:induction false} NothingGoesBack(history: seq<World>, i: nat, j: nat, p: Project, id: RuleId, g: nat,
                                           r: Request)
    requires Run(history) && i <= j < |history|
    ensures Kept(history[i], history[j], p, id, g, r)
    decreases j - i
  {
    if i < j {
      NothingGoesBack(history, i, j - 1, p, id, g, r);
      NextKeeps(history, j - 1, p, id, g, r);
      KeptFurther(history[i], history[j - 1], history[j], p, id, g, r);
    }
  }

  lemma RulesKeptFurther(a: seq<Rule>, b: seq<Rule>, c: seq<Rule>)
    requires RulesKept(a, b) && RulesKept(b, c)
    ensures RulesKept(a, c)
  {
    forall k | 0 <= k < |a| ensures RuleAged(a[k], c[k]) {
      assert RuleAged(a[k], b[k]) && RuleAged(b[k], c[k]);
    }
  }

  lemma KeptFurther(a: World, b: World, c: World, p: Project, id: RuleId, g: nat, r: Request)
    requires Kept(a, b, p, id, g, r) && Kept(b, c, p, id, g, r)
    ensures Kept(a, c, p, id, g, r)
  {
    RulesKeptFurther(a.policy.rules, b.policy.rules, c.policy.rules);
  }

  // ------------------------------------------------------------------ main results over every run

  lemma ResetAges(rules: seq<Rule>, p: Project, clock: RuleId -> Time)
    ensures RulesKept(rules, ResetRules(rules, p, clock))
  {
    var now := ResetRules(rules, p, clock);
    forall k | 0 <= k < |rules| ensures RuleAged(rules[k], now[k]) {
      assert now[k] == if Live(rules[k], p) then rules[k].(revoked := Some(clock(rules[k].id))) else rules[k];
    }
  }

  lemma ResetRevokes(rules: seq<Rule>, p: Project, clock: RuleId -> Time, id: RuleId)
    requires Position(rules, id) < |rules|
    ensures Position(ResetRules(rules, p, clock), id) == Position(rules, id)
    ensures var k := Position(rules, id);
      ResetRules(rules, p, clock)[k] == if Live(rules[k], p) then rules[k].(revoked := Some(clock(id))) else rules[k]
  {
    ResetAges(rules, p, clock);
    PositionStays(rules, ResetRules(rules, p, clock), id);
  }

  /** The cutoff a reset leaves: past every grant it listed, and past the previous cutoff. */
  lemma ResetMovesCutoff(w: World, reset: nat, now: Time, clock: RuleId -> Time)
    requires May(w, Reset(reset, now, clock))
    ensures var p, next := w.resets[reset].project, Do(w, Reset(reset, now, clock));
      && p in next.policy.projects && next.policy.projects[p].cutoff.Some?
      && (forall g :: g in w.resets[reset].listed && g in w.grants ==>
            w.grants[g].issued <= next.policy.projects[p].cutoff.value)
      && (p in w.policy.projects && w.policy.projects[p].cutoff.Some? ==>
            next.policy.projects[p].cutoff.value > w.policy.projects[p].cutoff.value)
      && forall id :: LiveRuleOf(w.policy, p, id) ==> Has(next.policy, id) && RuleAt(next.policy, id).revoked.Some?
  {
    forall id | LiveRuleOf(w.policy, w.resets[reset].project, id)
      ensures var next := Do(w, Reset(reset, now, clock));
        Has(next.policy, id) && RuleAt(next.policy, id).revoked.Some?
    {
      ResetRevokes(w.policy.rules, w.resets[reset].project, clock, id);
    }
  }

  predicate ListedGrant(w: World, reset: nat, g: nat) {
    reset in w.resets && g in w.resets[reset].listed && g in w.grants && w.grants[g].project == w.resets[reset].project
  }

  /** Reset is permanent: no grant the reset listed is ever live again, whatever is configured, staged,
      revoked or reset later, whether or not the grants themselves get revoked, at any clock; and no rule
      of the project that was live is ever active again. */
  lemma ResetIsPermanent(history: seq<World>, i: nat, j: nat, reset: nat, now: Time, clock: RuleId -> Time, g: nat,
                         id: RuleId, at: Time)
    requires Run(history) && i < j < |history|
    requires May(history[i], Reset(reset, now, clock)) && history[i + 1] == Do(history[i], Reset(reset, now, clock))
    ensures ListedGrant(history[i], reset, g) ==> !GrantIsLive(history[j], g, at)
    ensures LiveRuleOf(history[i].policy, history[i].resets[reset].project, id) ==> !RuleIsActive(history[j], id, at)
  {
    ResetMovesCutoff(history[i], reset, now, clock);
    var p := history[i].resets[reset].project;
    NothingGoesBack(history, i + 1, j, p, id, g, 0);
    StepKeeps(history[i], Reset(reset, now, clock), p, id, g, 0);
  }

  /** Exactly the grants not issued after the cutoff are cut off for good; one issued between the listing
      and the save, by a clock ahead of it, is not. */
  lemma CutoffDecidesForGood(history: seq<World>, i: nat, j: nat, g: nat)
    requires Run(history) && i <= j < |history| && g in history[i].grants
    requires var p := history[i].grants[g].project;
      p in history[i].policy.projects && history[i].policy.projects[p].cutoff.Some?
    requires history[i].grants[g].issued <= history[i].policy.projects[history[i].grants[g].project].cutoff.value
    ensures forall at {:trigger GrantIsLive(history[j], g, at)} :: !GrantIsLive(history[j], g, at)
  {
    NothingGoesBack(history, i, j, history[i].grants[g].project, ByHand(0), g, 0);
  }

  /** Of the project's grants that were live until the save, exactly those survive that were issued later
      than the clock, every listed grant and the previous cutoff, and do not rest on a rule of the project. */
  lemma ResetSparesOnlyLaterGrants(w: World, reset: nat, now: Time, clock: RuleId -> Time, g: nat, at: Time)
    requires May(w, Reset(reset, now, clock)) && GrantIsLive(w, g, at) && w.grants[g].project == w.resets[reset].project
    ensures var p, rule := w.resets[reset].project, w.grants[g].rule;
      var cutoff := Cutoff(SettingsOf(w.policy, p).cutoff, Latest(w.grants, w.resets[reset].listed, now));
      && (rule.Some? ==> Has(w.policy, rule.value))
      && (GrantIsLive(Do(w, Reset(reset, now, clock)), g, at)
          <==> && w.grants[g].issued > cutoff
               && (rule.Some? ==> RuleAt(w.policy, rule.value).project != p))
  {
    if w.grants[g].rule.Some? {
      ResetRevokes(w.policy.rules, w.resets[reset].project, clock, w.grants[g].rule.value);
    }
  }

  /** The race that remains: a grant issued after the listing, by a clock ahead of the reset's, exists when
      the reset is saved and outlives it. */
  lemma LateGrantOutlivesReset(clock: RuleId -> Time) returns (history: seq<World>)
    ensures Run(history) && |history| == 5
    ensures May(history[3], Reset(0, 5, clock)) && history[4] == Do(history[3], Reset(0, 5, clock))
    ensures 7 in history[3].grants && history[3].grants[7].project == history[3].resets[0].project
    ensures GrantIsLive(history[4], 7, 11)
  {
    var w0 := World(Policy(0, map[], []), map[], map[], map[]);
    var w1 := Do(w0, Ask(0, 3, 4));
    assert Lists(w1, 3, []);
    var w2 := Do(w1, ReadForReset(0, 3, []));
    var w3 := Do(w2, Resolve(0, ThisRun, None, 7, 10, None));
    assert May(w3, Reset(0, 5, clock));
    var w4 := Do(w3, Reset(0, 5, clock));
    StepsExtend(Follows, [w0], w1);
    StepsExtend(Follows, [w0, w1], w2);
    StepsExtend(Follows, [w0, w1, w2], w3);
    StepsExtend(Follows, [w0, w1, w2, w3], w4);
    history := [w0, w1, w2, w3, w4];
  }

  /** No id twice, and a rule carries exactly the request its id is made of. */
  predicate Distinct(rules: seq<Rule>) {
    && (forall i, j :: 0 <= i < j < |rules| ==> rules[i].id != rules[j].id)
    && forall rule :: rule in rules ==> rule.source == if rule.id.Of? then Some(rule.id.request) else None
  }

  lemma AgedStayDistinct(was: seq<Rule>, now: seq<Rule>)
    requires Distinct(was) && RulesKept(was, now) && |now| == |was|
    ensures Distinct(now)
  {
    forall i, j | 0 <= i < j < |now| ensures now[i].id != now[j].id {
      assert now[i].id == was[i].id && now[j].id == was[j].id;
    }
    forall rule | rule in now ensures rule.source == if rule.id.Of? then Some(rule.id.request) else None {
      var k :| 0 <= k < |now| && now[k] == rule;
      assert was[k] in was;
    }
  }

  lemma StepKeepsDistinct(w: World, step: Step)
    requires May(w, step) && Distinct(w.policy.rules)
    ensures Distinct(Do(w, step).policy.rules)
  {
    StepKeeps(w, step, 0, ByHand(0), 0, 0);
    if |Do(w, step).policy.rules| == |w.policy.rules| {
      AgedStayDistinct(w.policy.rules, Do(w, step).policy.rules);
    }
  }

  lemma {:induction false} RulesAreDistinct(history: seq<World>, i: nat)
    requires Run(history) && i < |history|
    ensures Distinct(history[i].policy.rules)
  {
    if i > 0 {
      RulesAreDistinct(history, i - 1);
      assert StepAt(Follows, history, i - 1);
      var step :| May(history[i - 1], step) && history[i] == Do(history[i - 1], step);
      StepKeepsDistinct(history[i - 1], step);
    }
  }

  lemma RuleCarriesRequest(history: seq<World>, i: nat, r: Request)
    requires Run(history) && i < |history|
    ensures Has(history[i].policy, Of(r)) ==> RuleAt(history[i].policy, Of(r)).source == Some(r)
  {
    RulesAreDistinct(history, i);
    if Has(history[i].policy, Of(r)) {
      assert RuleAt(history[i].policy, Of(r)) in history[i].policy.rules;
    }
  }

  lemma OpenIsInert(history: seq<World>, i: nat, r: Request)
    requires Run(history) && i < |history| && r in history[i].requests && history[i].requests[r].status == Open
    ensures forall at :: !RuleIsActive(history[i], Of(r), at)
  {
    RuleCarriesRequest(history, i, r);
  }

  predicate ResolvedOtherwise(asked: Asked, r: Request) {
    asked.status != Open && !(asked.status == Approved && asked.choice == Some(Always) && asked.rule == Some(Of(r)))
  }

  /** A request resolved in any other way leaves its staged rule inert for good; until it is resolved the
      rule is inert too. */
  lemma StagedRuleNeedsItsApproval(history: seq<World>, i: nat, j: nat, r: Request, at: Time)
    requires Run(history) && i <= j < |history| && r in history[i].requests
    ensures history[i].requests[r].status == Open ==> !RuleIsActive(history[i], Of(r), at)
    ensures ResolvedOtherwise(history[i].requests[r], r) ==> !RuleIsActive(history[j], Of(r), at)
  {
    NothingGoesBack(history, i, j, 0, Of(r), 0, r);
    RuleCarriesRequest(history, i, r);
    RuleCarriesRequest(history, j, r);
  }

  /** Rules that a request's approval staged. */
  predicate StagedAt(rules: seq<Rule>, k: nat, r: Request) {
    k < |rules| && rules[k].source == Some(r)
  }

  /** In every run a request has at most one rule, which the loop over the rules finds by its id. */
  lemma OneRulePerRequest(history: seq<World>, i: nat, r: Request, a: nat)
    requires Run(history) && i < |history|
    ensures StagedAt(history[i].policy.rules, a, r) ==> a == Position(history[i].policy.rules, Of(r))
    ensures Has(history[i].policy, Of(r)) <==> exists k: nat :: StagedAt(history[i].policy.rules, k, r)
  {
    RulesAreDistinct(history, i);
    var rules := history[i].policy.rules;
    if Has(history[i].policy, Of(r)) {
      assert RuleAt(history[i].policy, Of(r)) in rules;
      assert StagedAt(rules, Position(rules, Of(r)), r);
    }
    forall k: nat | StagedAt(rules, k, r) ensures k == Position(rules, Of(r)) {
      assert rules[k] in rules;
    }
  }

  /** Once a request's rule is staged it is the request's only one for good, and staging again, at any later
      time and whatever was configured, reset or revoked meanwhile, changes nothing: it succeeds if the rule
      is for that scope and not revoked, and is refused otherwise. */
  lemma RetriesStageOneRule(history: seq<World>, i: nat, j: nat, r: Request, p: Project, scope: Scope, now: Time)
    requires Run(history) && i <= j < |history| && Has(history[i].policy, Of(r))
    ensures Has(history[j].policy, Of(r))
    ensures RuleAged(RuleAt(history[i].policy, Of(r)), RuleAt(history[j].policy, Of(r)))
    ensures forall k: nat :: StagedAt(history[j].policy.rules, k, r) <==> k == Position(history[j].policy.rules, Of(r))
    ensures var rule := RuleAt(history[i].policy, Of(r));
      Staged(history[j].policy, r, p, scope, now)
      == if rule.scope == scope && rule.project == p && RuleAt(history[j].policy, Of(r)).revoked.None?
         then Ok(history[j].policy) else Rejected
  {
    NothingGoesBack(history, i, j, p, Of(r), 0, r);
    RulesAreDistinct(history, j);
    forall k: nat ensures StagedAt(history[j].policy.rules, k, r) <==> k == Position(history[j].policy.rules, Of(r)) {
      OneRulePerRequest(history, j, r, k);
      assert RuleAt(history[j].policy, Of(r)) in history[j].policy.rules;
    }
  }

  // ------------------------------------------------------------------ the services

  /** The request was already approved, in the same way and with its rule on record. */
  predicate Repeats(w: World, r: Request, choice: Choice) {
    && r in w.requests && w.requests[r].status == Approved && w.requests[r].choice == Some(choice)
    && (choice == Always ==> w.requests[r].rule == Some(Of(r)) && Has(w.policy, Of(r)))
  }

  /** An open request, a new grant, and for "always" a rule that can be staged. */
  predicate Approvable(w: World, r: Request, choice: Choice, g: nat, now: Time) {
    && r in w.requests && w.requests[r].status == Open && g !in w.grants
    && (choice == Always ==> Staged(w.policy, r, w.requests[r].project, w.requests[r].scope, now).Ok?)
  }

  datatype ResetOutcome = NotSaved | Saved(complete: bool)

  class PermissionPolicyService {
    var world: World
    ghost var history: seq<World>

    /** The world is one that some run reaches, so every result above holds of it. */
    ghost predicate Valid()
      reads this
    {
      Run(history) && history[|history| - 1] == world
    }

    constructor (policy: Policy)
      requires HandWritten(policy.rules)
      ensures Valid() && world == World(policy, map[], map[], map[])
    {
      world, history := World(policy, map[], map[], map[]), [World(policy, map[], map[], map[])];
    }

    method Advance(step: Step)
      requires Valid() && May(world, step)
      modifies this
      ensures Valid() && |history| == |old(history)| + 1 && old(history) <= history && world == Do(old(world), step)
    {
      StepsExtend(Follows, history, Do(world, step));
      history := history + [Do(world, step)];
      world := Do(world, step);
    }

    /** Other users, approvals and grants go on between two effects of an operation. */
    method Others(steps: seq<Step>)
      requires Valid()
      modifies this
      ensures Valid() && old(history) <= history && (steps == [] ==> world == old(world))
    {
      for k := 0 to |steps|
        invariant Valid() && old(history) <= history && (k == 0 ==> world == old(world))
      {
        if May(world, steps[k]) {
          Advance(steps[k]);
        }
      }
    }

    method ListProjectGrants(p: Project) returns (listed: seq<nat>)
      requires Valid()
      ensures Lists(world, p, listed)
    {
      listed := [];
      var rest := world.grants.Keys;
      while rest != {}
        invariant rest <= world.grants.Keys
        invariant forall g :: g in world.grants.Keys - rest && world.grants[g].project == p ==> g in listed
        invariant forall g :: g in listed ==> g in world.grants && world.grants[g].project == p
        decreases |rest|
      {
        var g :| g in rest;
        rest := rest - {g};
        if world.grants[g].project == p {
          listed := listed + [g];
        }
      }
    }

    /** The first half of `reset`: load, list, and save against the revision that was loaded. */
    method PublishReset(reset: nat, p: Project, now: Time, clock: RuleId -> Time, others: seq<Step>)
      returns (listed: seq<nat>, saved: bool)
      requires Valid() && reset !in world.resets
      modifies this
      ensures Valid() && old(history) <= history
      ensures |history| > |old(history)|
      ensures saved ==>
        |history| - 2 >= 0 && SavedAt(history, |old(history)| - 1, |history| - 2, reset, p, listed, now, clock)
      ensures others == [] ==> (saved <==> ClockReaches(old(world.policy), p, clock) && Room(old(world.policy), p))
    {
      listed := ListProjectGrants(p);
      var loaded := world.policy.revision;
      ghost var first := |history| - 1;
      Advance(ReadForReset(reset, p, listed));
      Others(others);
      ReadingStays(history, first + 1, |history| - 1, reset);
      saved := SaveReset(reset, p, loaded, listed, now, clock, first);
    }

    /** `TrustStore.save` of the reset policy, against the revision that was loaded. */
    method SaveReset(reset: nat, p: Project, loaded: nat, listed: seq<nat>, now: Time, clock: RuleId -> Time,
                     ghost first: nat)
      returns (saved: bool)
      requires Valid() && reset in world.resets && world.resets[reset] == Reading(p, loaded, listed)
      requires first < |history| - 1 && Lists(history[first], p, listed)
      modifies this
      ensures Valid() && old(history) <= history
      ensures saved <==>
        old(world.policy.revision) == loaded && ClockReaches(old(world.policy), p, clock) && Room(old(world.policy), p)
      ensures saved ==> SavedAt(history, first, |history| - 2, reset, p, listed, now, clock)
    {
      MaySave(world, reset, p, loaded, listed, now, clock);
      saved := world.policy.revision == loaded
        && ResetOf(world.policy, p, Latest(world.grants, listed, now), clock).Ok?;
      if saved {
        Advance(Step.Reset(reset, now, clock));
      }
    }

    /** `reset`: the saved policy first, then the listed grants one by one. `failsAt` is the first
        revocation that fails; the cutoff has already been saved. */
    method Reset(reset: nat, p: Project, now: Time, clock: RuleId -> Time, others: seq<Step>, failsAt: nat)
      returns (outcome: ResetOutcome)
      requires Valid() && reset !in world.resets
      modifies this
      ensures Valid() && old(history) <= history
      ensures outcome.Saved? ==>
        && p in world.policy.projects && world.policy.projects[p].cutoff.Some?
        && (p in old(world.policy.projects) && old(world.policy.projects)[p].cutoff.Some? ==>
              world.policy.projects[p].cutoff.value > old(world.policy.projects)[p].cutoff.value)
        && (forall g :: g in old(world.grants) && old(world.grants)[g].project == p ==>
              forall at :: !GrantIsLive(world, g, at))
      ensures others == [] ==>
        (outcome.Saved? <==> ClockReaches(old(world.policy), p, clock) && Room(old(world.policy), p))
      ensures outcome == Saved(true) ==>
        forall g :: g in old(world.grants) && old(world.grants)[g].project == p ==>
          g in world.grants && world.grants[g].revoked
    {
      ghost var first := |history| - 1;
      var listed, saved := PublishReset(reset, p, now, clock, others);
      if !saved {
        return NotSaved;
      }
      ghost var before := |history| - 2;
      ghost var published := history;
      outcome := RevokeListed(listed, failsAt);
      SavedLater(published, history, first, before, reset, p, listed, now, clock);
      ListedStayDead(history, first, before, |history| - 1, reset, p, listed, now, clock);
    }

    method RevokeListed(listed: seq<nat>, failsAt: nat) returns (outcome: ResetOutcome)
      requires Valid()
      modifies this
      ensures Valid() && old(history) <= history && outcome.Saved? && world == old(world).(grants := world.grants)
      ensures outcome.complete <==> !(failsAt < |listed|)
      ensures outcome.complete ==> forall g :: g in listed && g in world.grants ==> world.grants[g].revoked
    {
      for k := 0 to |listed|
        invariant Valid() && old(history) <= history && k <= failsAt && world == old(world).(grants := world.grants)
        invariant forall i :: 0 <= i < k && listed[i] in world.grants ==> world.grants[listed[i]].revoked
      {
        if k == failsAt {
          return Saved(false);
        }
        if listed[k] in world.grants && !world.grants[listed[k]].revoked {
          Advance(RevokeGrant(listed[k]));
        }
      }
      return Saved(true);
    }

    /** The rule for the exact request: staged, found staged before, or refused. */
    method StageRule(r: Request, now: Time) returns (ready: bool)
      requires Valid() && r in world.requests
      modifies this
      ensures Valid() && old(history) <= history
      ensures ready
        <==> Staged(old(world).policy, r, old(world).requests[r].project, old(world).requests[r].scope, now).Ok?
      ensures ready ==>
        Has(world.policy, Of(r)) && world.requests == old(world).requests && world.grants == old(world).grants
      ensures !ready ==> world == old(world)
    {
      var asked := world.requests[r];
      ready := Staged(world.policy, r, asked.project, asked.scope, now).Ok?;
      if ready {
        StagePuts(world, r, asked.project, asked.scope, now);
        Advance(Stage(r, asked.project, asked.scope, now));
      }
    }

    /** `approve`: stage the rule first, then resolve. A crash between the two leaves the rule inert, and
        the same approval can be given again. */
    method Approve(r: Request, choice: Choice, g: nat, now: Time, expires: Option<Time>, others: seq<Step>, crash: bool)
      returns (granted: bool)
      requires Valid() && choice != Choice.Deny
      modifies this
      ensures Valid() && old(history) <= history
      ensures granted ==>
        r in world.requests && world.requests[r].status == Approved && world.requests[r].choice == Some(choice)
      ensures granted && choice == Always ==> Has(world.policy, Of(r)) && world.requests[r].rule == Some(Of(r))
      ensures r in world.requests && world.requests[r].status == Open ==> forall at :: !RuleIsActive(world, Of(r), at)
      ensures Repeats(old(world), r, choice) ==> granted && world == old(world)
      ensures others == [] && !crash && Approvable(old(world), r, choice, g, now) ==> granted
    {
      granted := false;
      if r !in world.requests || world.requests[r].status == Denied {
        return;
      }
      if world.requests[r].status == Approved {
        return world.requests[r].choice == Some(choice) && (choice == Always ==> Repeats(world, r, choice));
      }
      OpenIsInert(history, |history| - 1, r);
      var ready := true;
      if choice == Always {
        ready := StageRule(r, now);
      }
      if ready {
        granted := ResolveStaged(r, choice, g, now, expires, others, crash);
      }
    }

    /** The second half of `approve`: others may have decided the request meanwhile. */
    method ResolveStaged(r: Request, choice: Choice, g: nat, now: Time, expires: Option<Time>, others: seq<Step>,
                         crash: bool)
      returns (granted: bool)
      requires Valid() && choice != Choice.Deny && r in world.requests
      requires choice == Always ==> Has(world.policy, Of(r))
      modifies this
      ensures Valid() && old(history) <= history
      ensures granted ==>
        r in world.requests && world.requests[r].status == Approved && world.requests[r].choice == Some(choice)
      ensures granted && choice == Always ==> Has(world.policy, Of(r)) && world.requests[r].rule == Some(Of(r))
      ensures r in world.requests && world.requests[r].status == Open ==> forall at :: !RuleIsActive(world, Of(r), at)
      ensures others == [] && !crash && old(world.requests[r].status) == Open && g !in old(world.grants) ==> granted
    {
      ghost var staged := |history| - 1;
      Others(others);
      NothingGoesBack(history, staged, |history| - 1, 0, Of(r), 0, r);
      granted := false;
      if world.requests[r].status == Open {
        OpenIsInert(history, |history| - 1, r);
        if !crash && g !in world.grants {
          var rule := if choice == Always then Some(Of(r)) else None;
          Advance(Resolve(r, choice, rule, g, now, expires));
          granted := true;
        }
      }
    }
  }

  lemma MaySave(w: World, reset: nat, p: Project, loaded: nat, listed: seq<nat>, now: Time, clock: RuleId -> Time)
    requires reset in w.resets && w.resets[reset] == Reading(p, loaded, listed)
    ensures May(w, Step.Reset(reset, now, clock)) <==>
      w.policy.revision == loaded && ResetOf(w.policy, p, Latest(w.grants, listed, now), clock).Ok?
    ensures ResetOf(w.policy, p, Latest(w.grants, listed, now), clock).Ok?
      <==> ClockReaches(w.policy, p, clock) && Room(w.policy, p)
  {
  }

  lemma StagePuts(w: World, r: Request, p: Project, scope: Scope, now: Time)
    requires May(w, Stage(r, p, scope, now))
    ensures var next := Do(w, Stage(r, p, scope, now));
      Has(next.policy, Of(r)) && next.requests == w.requests && next.grants == w.grants
  {
    var rules := w.policy.rules;
    if !Has(w.policy, Of(r)) {
      var next := Staged(w.policy, r, p, scope, now).value.rules;
      assert next[|rules|].id == Of(r);
    }
  }

  lemma FollowingKeepsReading(w: World, next: World, reset: nat)
    requires Follows(w, next) && reset in w.resets
    ensures reset in next.resets && next.resets[reset] == w.resets[reset]
  {
    var step :| May(w, step) && next == Do(w, step);
  }

  lemma {:induction false} ReadingStays(history: seq<World>, i: nat, j: nat, reset: nat)
    requires Run(history) && i <= j < |history| && reset in history[i].resets
    ensures reset in history[j].resets && history[j].resets[reset] == history[i].resets[reset]
    decreases j - i
  {
    if i < j {
      ReadingStays(history, i, j - 1, reset);
      assert StepAt(Follows, history, j - 1);
      FollowingKeepsReading(history[j - 1], history[j], reset);
    }
  }

  /** At `first` the listing was read, at `before` the reset was saved. */
  ghost predicate SavedAt(history: seq<World>, first: nat, before: nat, reset: nat, p: Project, listed: seq<nat>,
                          now: Time, clock: RuleId -> Time) {
    && first < before && before + 1 < |history|
    && Lists(history[first], p, listed)
    && reset in history[before].resets
    && history[before].resets[reset] == Reading(p, history[before].policy.revision, listed)
    && May(history[before], Step.Reset(reset, now, clock))
    && history[before + 1] == Do(history[before], Step.Reset(reset, now, clock))
  }

  lemma SavedLater(history: seq<World>, longer: seq<World>, first: nat, before: nat, reset: nat, p: Project,
                   listed: seq<nat>, now: Time, clock: RuleId -> Time)
    requires SavedAt(history, first, before, reset, p, listed, now, clock) && history <= longer
    ensures SavedAt(longer, first, before, reset, p, listed, now, clock)
  {
    assert longer[first] == history[first] && longer[before] == history[before]
      && longer[before + 1] == history[before + 1];
  }

  /** Every grant there was when the listing was read is dead once the reset was saved. */
  lemma ListedStayDead(history: seq<World>, first: nat, before: nat, last: nat, reset: nat, p: Project,
                       listed: seq<nat>, now: Time, clock: RuleId -> Time)
    requires Run(history) && SavedAt(history, first, before, reset, p, listed, now, clock) && before < last < |history|
    ensures p in history[last].policy.projects && history[last].policy.projects[p].cutoff.Some?
    ensures p in history[first].policy.projects && history[first].policy.projects[p].cutoff.Some? ==>
      history[last].policy.projects[p].cutoff.value > history[first].policy.projects[p].cutoff.value
    ensures forall g, at {:trigger GrantIsLive(history[last], g, at)} ::
      g in history[first].grants && history[first].grants[g].project == p ==> !GrantIsLive(history[last], g, at)
    ensures forall g :: g in history[first].grants && history[first].grants[g].project == p ==>
      g in listed && g in history[last].grants
  {
    ResetMovesCutoff(history[before], reset, now, clock);
    NothingGoesBack(history, first, before, p, ByHand(0), 0, 0);
    NothingGoesBack(history, before + 1, last, p, ByHand(0), 0, 0);
    forall g | g in history[first].grants && history[first].grants[g].project == p ensures g in history[last].grants {
      NothingGoesBack(history, first, last, p, ByHand(0), g, 0);
    }
    forall g, at | g in history[first].grants && history[first].grants[g].project == p
      ensures !GrantIsLive(history[last], g, at) {
      NothingGoesBack(history, first, before, p, ByHand(0), g, 0);
      ResetIsPermanent(history, before, last, reset, now, clock, g, ByHand(0), at);
    }
  }
}
