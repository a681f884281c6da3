/** The role plan, and the task identifiers built from it. */
module TaskIds {
  import Decimal

  /** One row of the role plan; a stage is the position of its row. */
  datatype Role = Role(suffix: string, worker: string, skills: set<string>)

  /**
   A project with its role plan.  The first `gate` stages run before the R2
   approval, the others after it.
   */
  datatype Project = Project(id: string, plan: seq<Role>, gate: nat)

  const ROLE_PLAN: seq<Role> := [
    Role("context", "ego-scout", {"research-memory"}),
    Role("plan", "ego-architect", {"research-plan", "ablation-analyzer"}),
    Role("plan-review", "ego-reviewer", {"evidence-gate"}),
    Role("execute", "ego-runtime", {"safe-experiment-runner", "dataset-manifest"}),
    Role("observe", "ego-runtime", {"safe-experiment-runner"}),
    Role("evaluate", "ego-evaluator", {"ablation-analyzer"}),
    Role("verify", "ego-reviewer", {"evidence-gate"}),
    Role("memory", "ego-memory-curator", {"research-memory"})]

  const GATE := 3

  /** What the id scheme needs of a plan: distinct suffixes, none ending in a digit. */
  ghost predicate ProjectOk(p: Project) {
    && 0 < p.gate < |p.plan|
    && (forall s :: 0 <= s < |p.plan| ==> p.plan[s].suffix != "" && !Decimal.IsDigit(p.plan[s].suffix[|p.plan[s].suffix| - 1]))
    && (forall s, t :: 0 <= s < t < |p.plan| ==> p.plan[s].suffix != p.plan[t].suffix)
  }

  lemma RolePlanOk(id: string)
    ensures ProjectOk(Project(id, ROLE_PLAN, GATE))
  {
    var plan := ROLE_PLAN;
    assert |plan[1].suffix| == 4 && |plan[2].suffix| == 11 && |plan[5].suffix| == 8;
    assert |plan[0].suffix| == 7 && plan[0].suffix[0] == 'c';
    assert |plan[3].suffix| == 7 && plan[3].suffix[0] == 'e';
    assert |plan[4].suffix| == 7 && plan[4].suffix[0] == 'o';
    assert |plan[6].suffix| == 6 && plan[6].suffix[0] == 'v';
    assert |plan[7].suffix| == 6 && plan[7].suffix[0] == 'm';
  }

  /** The id of the first attempt at a stage. */
  function BaseId(p: Project, s: nat): string
    requires s < |p.plan|
  {
    p.id + "-" + p.plan[s].suffix
  }

  /** The id of the n-th replacement of a logical task. */
  function ReplacementId(origin: string, n: nat): string {
    origin + "-r" + Decimal.Print(n)
  }

  /** Attempt 1 is the base task; attempt k + 1 is replacement k. */
  function AttemptId(p: Project, s: nat, attempt: nat): string
    requires s < |p.plan| && attempt >= 1
  {
    if attempt == 1 then BaseId(p, s) else ReplacementId(BaseId(p, s), attempt - 1)
  }

  lemma BaseIdInjective(p: Project, s: nat, t: nat)
    requires ProjectOk(p) && s < |p.plan| && t < |p.plan|
    requires BaseId(p, s) == BaseId(p, t)
    ensures s == t
  {
    var prefix := p.id + "-";
    assert BaseId(p, s)[|prefix|..] == p.plan[s].suffix && BaseId(p, t)[|prefix|..] == p.plan[t].suffix;
  }

  /** A replacement id splits in one way only, whatever characters the origin holds. */
  lemma ReplacementIdInjective(a: string, m: nat, b: string, n: nat)
    requires ReplacementId(a, m) == ReplacementId(b, n)
    ensures a == b && m == n
  {
    var x, y := Decimal.Print(m), Decimal.Print(n);
    var w := ReplacementId(a, m);
    assert w[|w| - |x| - 1] == 'r' && w[|w| - |y| - 1] == 'r';
    assert |x| == |y|;
    assert w[|w| - |x|..] == x && w[|w| - |y|..] == y;
    assert w[..|w| - |x| - 2] == a && w[..|w| - |y| - 2] == b;
    Decimal.PrintInjective(m, n);
  }

  lemma BaseIsNotReplacement(p: Project, s: nat, origin: string, n: nat)
    requires ProjectOk(p) && s < |p.plan|
    ensures BaseId(p, s) != ReplacementId(origin, n)
  {
    var b, r, x := BaseId(p, s), ReplacementId(origin, n), p.plan[s].suffix;
    assert Decimal.IsDigit(r[|r| - 1]);
    assert b[|b| - 1] == x[|x| - 1];
  }

  /**
   No two attempts share an id, although "plan" plus a replacement suffix begins
   like "plan-review": an id determines its stage and its attempt.
   */
  lemma AttemptIdInjective(p: Project, s: nat, i: nat, t: nat, j: nat)
    requires ProjectOk(p) && s < |p.plan| && t < |p.plan| && i >= 1 && j >= 1
    ensures AttemptId(p, s, i) == AttemptId(p, t, j) <==> s == t && i == j
  {
    if AttemptId(p, s, i) == AttemptId(p, t, j) {
      if i == 1 && j == 1 {
        BaseIdInjective(p, s, t);
      } else if i == 1 {
        BaseIsNotReplacement(p, s, BaseId(p, t), j - 1);
      } else if j == 1 {
        BaseIsNotReplacement(p, t, BaseId(p, s), i - 1);
      } else {
        ReplacementIdInjective(BaseId(p, s), i - 1, BaseId(p, t), j - 1);
        BaseIdInjective(p, s, t);
      }
    }
  }
}
