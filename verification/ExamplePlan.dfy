/** A model whose plan, within the program's own limits, reports a figure that is too low: with 150
    experts, a sensitive output projection gets a floor of 6 bits in groups of 128 and is raised as if
    these were groups of 64. */
module ExamplePlan {
  import opened Common
  import opened QuantNames
  import opened QuantCost
  import opened QuantPlan
  import opened PlanProofs
  import opened PlanTheorems
  import opened PlanLedger
  import opened PlanRoom
  import opened Planner

  const WO := "layers.0.wo"
  const UP := "layers.0.switch_mlp.up_proj"

  predicate Ordinary(cfg: Config) { cfg.experts == 150 && cfg.nonQuantizable == {} && cfg.scores == map[0 := 1.0] }

  // ---------- the rule for that path ----------

  lemma PartsAreInside(path: string, part: string, c: char)
    requires c in part && (Has(path, part) || EndsWith(path, part))
    ensures c in path
  {
    var k :| 0 <= k < |part| && part[k] == c;
    var i :| 0 <= i <= |path| && part <= path[i..];
    assert path[i..][k] == path[i + k];
  }

  /** The characters of the path. */
  predicate Own(c: char) {
    c == 'l' || c == 'a' || c == 'y' || c == 'e' || c == 'r' || c == 's' || c == '.' || c == '0' || c == 'w' || c == 'o'
  }

  lemma OwnOnly()
    ensures forall c <- WO :: Own(c)
  {
  }

  /** A part with any other character does not occur. */
  lemma Absent(part: string, k: nat)
    requires k < |part| && !Own(part[k])
    ensures !Has(WO, part) && !EndsWith(WO, part)
  {
    OwnOnly();
    hide Own;
    if Has(WO, part) || EndsWith(WO, part) { PartsAreInside(WO, part, part[k]); }
  }

  lemma Plain()
    ensures Lower(WO) == WO && Normalize(WO) == WO
    ensures !IsRouter(WO) && !SharedGate(WO) && !IsAudio(WO)
  {
    hide Has, EndsWith;
    Absent(".weight", 3);
    Absent(".scales", 2);
    Absent(".biases", 1);
    Absent("mlp.gate", 0);
    Absent(".router", 3);
    Absent(".router.layer", 3);
    Absent(".gate", 1);
    Absent(".gate.", 1);
    Absent("shared_expert_gate", 1);
    Absent("audio_tower", 1);
    assert Lower(WO) == WO;
  }

  lemma NotVision()
    ensures !IsVision(WO)
  {
    hide Has, EndsWith;
    Absent("visual.", 0);
    Absent("vision_", 0);
    Absent("patch_embed", 0);
    Absent("pos_embed", 0);
    Absent("image_newline", 0);
    Absent("multi_modal_projector", 0);
    Absent("visual.merger", 0);
    Absent("image_norm", 0);
    Absent("temporal_embed", 0);
  }

  lemma NotKept(cfg: Config)
    requires Ordinary(cfg)
    ensures !KeptInFp16(WO, cfg)
  {
    hide Has, EndsWith;
    Plain();
    NotVision();
    Absent("ssm_alpha", 2);
    Absent("ssm_beta", 2);
    Absent("a_log", 1);
    Absent("time_decay", 0);
    Absent("time_faaaa", 0);
    Absent(".D", 1);
    Absent("dt_bias", 0);
  }

  lemma NotProtectedBefore(cfg: Config)
    requires Ordinary(cfg)
    ensures FullProtection(WO, cfg) == ByProjection(WO, cfg)
  {
    hide Has, EndsWith;
    Absent("ssm_output", 2);
    Absent("ssm_out", 2);
    Absent("lora.2", 5);
    Absent("lm_head", 1);
    Absent("output.weight", 1);
    Absent("classifier", 0);
    Absent("cross_attn", 0);
    Absent("kv_a_proj_with_mqa", 0);
    Absent("kv_b_proj", 0);
    Absent("q_a_proj", 0);
    Absent("q_b_proj", 0);
    Absent("o_proj", 1);
    Absent("shared_expert", 1);
    Absent("gate_proj", 0);
    Absent("down_proj", 0);
  }

  lemma SensitiveOutput(cfg: Config)
    requires Ordinary(cfg)
    ensures LayerIndex(WO) == Some(0) && ByProjection(WO, cfg) == Wants(6)
  {
    hide Has, EndsWith;
    Absent("v_proj", 0);
    Absent("v_a_proj", 0);
    Absent("v_b_proj", 0);
    Absent("switch_mlp", 2);
    Absent("experts", 1);
    WoIsThere();
    InLayerZero();
    hide LayerIndex;
    ScoresBest(cfg);
    hide Sensitive;
    assert !HasAny(WO, ["v_proj", "v_a_proj", "v_b_proj"]) && !HasAny(WO, ["switch_mlp", "experts"]);
    var parts := ["down_proj", "w2", "mlp.fc2", "wo"];
    assert parts[3] == "wo" && HasAny(WO, parts);
  }

  lemma ScoresBest(cfg: Config)
    requires Ordinary(cfg)
    ensures Sensitive(WO, cfg)
  {
    InLayerZero();
    hide LayerIndex;
    var own := if 0 in cfg.scores then cfg.scores[0] else 0.0;
    assert own == 1.0;
    assert (set j | j in cfg.scores && cfg.scores[j] > own) == {};
  }

  lemma WoIsThere()
    ensures Has(WO, "wo")
  {
    assert "wo" <= WO[9..];
  }

  lemma InLayerZero()
    ensures LayerIndex(WO) == Some(0)
  {
    assert WO[7..] == "0.wo";
    assert DigitRun("0.wo") == 1;
    assert "0.wo"[..1] == "0" && ReadDecimal("0") == 0;
  }

  lemma NotSpecial()
    ensures !IsMandatory(WO) && !IsRoutedExpert(WO) && !IsDownProjection(WO)
  {
    hide Has, EndsWith;
    Absent("lm_head", 1);
    Absent("embeddings", 1);
    Absent("embed_tokens", 1);
    Absent("wte", 1);
    Absent("switch_mlp", 2);
    Absent("experts", 1);
    Absent("block_sparse_moe", 0);
    Absent("down_proj", 0);
    Absent("w2", 1);
  }

  lemma Floor(cfg: Config)
    requires Ordinary(cfg) && cfg.boosts == map[] && !cfg.budgetPlan
    ensures UniversalRule(WO, cfg, L2) == Use(Affinely(6, 128))
  {
    hide Has, EndsWith;
    Plain();
    NotKept(cfg);
    NotProtectedBefore(cfg);
    SensitiveOutput(cfg);
    Absent("conv1d", 0);
    Absent("linear_attn.out_proj", 1);
  }

  /** What the planner makes of that tensor, at level 2 and with any boosts. */
  lemma Described(cfg: Config)
    requires Ordinary(cfg)
    ensures Describe(Tensor(WO, [128, 128]), cfg, L2)
         == Item(Tensor(WO, [128, 128]), false, false, false, false, Some(Affinely(6, 128)), Some(0), 1.0)
  {
    Floor(cfg.(boosts := map[], budgetPlan := false));
    NotSpecial();
    InLayerZero();
    Plain();
    NotKept(cfg.(boosts := map[]));
    RuleIsSound(WO, cfg.(boosts := map[]), L2);
    hide UniversalRule, LayerIndex, Boosted, SharedGate, Normalize, IsMandatory, IsRoutedExpert, IsDownProjection, KeptInFp16;
  }

  // ---------- the routed expert beside it ----------

  lemma Elsewhere(part: string, k: nat)
    requires k < |part| && part[k] in ['d', 'b']
    ensures !Has(UP, part)
  {
    assert 'd' !in UP && 'b' !in UP;
    if Has(UP, part) { PartsAreInside(UP, part, part[k]); }
  }

  lemma WithWte(path: string)
    requires Has(path, "wte")
    ensures exists i :: 0 <= i < |path| - 1 && path[i] == 'w' && path[i + 1] == 't'
  {
    var i :| 0 <= i <= |path| && "wte" <= path[i..];
    assert path[i..][0] == path[i] && path[i..][1] == path[i + 1];
  }

  lemma NoWte()
    ensures !Has(UP, "wte")
  {
    assert forall i :: 0 <= i < |UP| - 1 && UP[i] == 'w' ==> UP[i + 1] != 't';
    hide Has;
    if Has(UP, "wte") { WithWte(UP); }
  }

  lemma HasSwitch()
    ensures Has(UP, "switch_mlp")
  {
    assert "switch_mlp" <= UP[9..];
  }

  lemma RoutedByName()
    ensures IsRoutedExpert(UP) && !IsMandatory(UP)
  {
    hide Has;
    HasSwitch();
    NoWte();
    Elsewhere("lm_head", 6);
    Elsewhere("embeddings", 5);
    Elsewhere("embed_tokens", 4);
  }

  lemma DescribedExpert(cfg: Config)
    ensures var r := Describe(Tensor(UP, [12800, 128]), cfg, L2); r.tensor == Tensor(UP, [12800, 128]) && r.routed && !r.mandatory
  {
    RoutedByName();
    hide UniversalRule, LayerIndex, IsMandatory, IsRoutedExpert, IsDownProjection;
  }

  // ---------- the plan ----------

  function Model(): seq<Tensor> { [Tensor(UP, [12800, 128]), Tensor(WO, [128, 128])] }

  /** At level 2, with the target and the cap of that level, there is room for the dearest entry of every
      tensor, and yet the running total is 4096 bits below the recomputed one. */
  lemma ReportsTooLittle(cfg: Config)
    requires Ordinary(cfg)
    ensures var ts, limits := Model(), BpwTargets(L2).value;
      var its, job := DescribeAll(ts, cfg, L2), JobFor(ts, cfg, L2, limits.1);
      var plan := Plan(its, job, Total(limits.0, TotalParams(ts)));
      && Fits(Room(its, job), job.cap)
      && plan == Ledger(map[WO := Standard(8)], 4231168)
      && TotalBits(ts, Standard(2), plan.boosts) == 4235264
  {
    var ts, limits := Model(), BpwTargets(L2).value;
    var its, job := DescribeAll(ts, cfg, L2), JobFor(ts, cfg, L2, limits.1);
    assert limits == (2.8, 3.0);
    ModelIsExample(cfg);
    hide *;
    TwoTensorPlan(its, job, Total(limits.0, TotalParams(ts)));
    EnoughRoom(its, job);
  }

  lemma ModelIsExample(cfg: Config)
    requires Ordinary(cfg)
    ensures Tensors(DescribeAll(Model(), cfg, L2)) == Model() && JobFor(Model(), cfg, L2, 3.0).base == Standard(2)
    ensures Example(DescribeAll(Model(), cfg, L2), JobFor(Model(), cfg, L2, 3.0))
  {
    var its := DescribeAll(Model(), cfg, L2);
    DescribedExpert(cfg);
    Described(cfg);
    assert its[0] == Describe(Model()[0], cfg, L2) && its[1] == Describe(Model()[1], cfg, L2);
    hide Describe, TotalParams, DescribeAll, MaxScore, Total;
    Weights();
    BestScore(cfg);
  }

  lemma Weights()
    ensures TotalParams(Model()) == 1654784 && Total(3.0, TotalParams(Model())) == 4964352.0
  {
    var ts := Model();
    Sizes(ts[0].shape, ts[1].shape);
    hide Product;
    assert ts[1..] == [ts[1]] && ts[1..][1..] == [];
    assert TotalParams(ts[1..]) == Product(ts[1].shape);
  }

  lemma Sizes(a: seq<nat>, b: seq<nat>)
    requires a == [12800, 128] && b == [128, 128]
    ensures Product(a) == 1638400 && Product(b) == 16384
  {
    assert a[1..] == [128] && b[1..] == [128] && [128][1..] == [];
  }

  lemma BestScore(cfg: Config)
    requires Ordinary(cfg)
    ensures MaxScore(cfg.scores) == 1.0
  {
    assert 0 in cfg.scores;
    HasMax(cfg.scores.Keys, cfg.scores);
  }

  /** The two items, and a job with the limits of level 2. */
  ghost predicate Example(its: seq<Item>, job: Job) {
    && |its| == 2 && its[0].tensor == Tensor(UP, [12800, 128]) && its[0].routed && !its[0].mandatory
    && its[1] == Item(Tensor(WO, [128, 128]), false, false, false, false, Some(Affinely(6, 128)), Some(0), 1.0)
    && job == Job(Standard(2), false, 1.0, 4964352.0)
  }

  lemma EnoughRoom(its: seq<Item>, job: Job)
    requires Example(its, job)
    ensures Fits(Room(its, job), job.cap)
  {
    ExampleCosts(its[0].tensor.shape, its[1].tensor.shape);
    hide Cost, Product;
    assert its[1..] == [its[1]] && its[1..][1..] == [];
    assert Dearest(its[0], job) == 4096000;
    assert Dearest(its[1], job) == 139264;
    assert Room(its[1..], job) == 139264;
  }

  lemma TwoTensorPlan(its: seq<Item>, job: Job, goal: real)
    requires Example(its, job)
    ensures var plan := Plan(its, job, goal);
      plan == Ledger(map[WO := Standard(8)], 4231168) && TotalBits(Tensors(its), job.base, plan.boosts) == 4235264
  {
    var it := its[1];
    var c := Cand(1.0, it.tensor, 6, 8);
    var low, high := Ledger(map[WO := Affinely(6, 128)], 4198400), Ledger(map[WO := Standard(8)], 4231168);
    ExampleCosts(its[0].tensor.shape, it.tensor.shape);
    assert UP != WO by { assert |UP| != |WO|; }
    TwoTensors(its, job, map[]);
    TwoTensors(its, job, high.boosts);
    hide Cost, Product, TotalBits, Tensors;
    OnlySecond(MandatoryPass, its, job, Empty(its, job));
    OnlySecond(ExpertPass, its, job, Empty(its, job));
    OnlySecond(FloorPass, its, job, Empty(its, job));
    assert AfterFloor(its, job) == low;
    ExampleRaise(it.tensor, c, job, low, high);
    SecondCandidate(true, its, job, low);
    assert AfterSensitivity(its, job) == high;
    SecondCandidate(false, its, job, high);
  }

  lemma TwoTensors(its: seq<Item>, job: Job, boosts: map<string, Quant>)
    requires Example(its, job) && UP !in boosts
    ensures TotalBits(Tensors(its), job.base, boosts)
         == Cost(its[0].tensor.shape, job.base) + Cost(its[1].tensor.shape, Chosen(boosts, WO, job.base))
  {
    hide Cost;
    var ts := Tensors(its);
    assert ts[1..] == [its[1].tensor] && ts[1..][1..] == [];
    assert TotalBits(ts[1..][1..], job.base, boosts) == 0;
  }

  lemma OnlySecond(p: Pass, its: seq<Item>, job: Job, led: Ledger)
    requires Example(its, job)
    ensures PlaceAll(p, its, job, led) == Place(p, its[1], job, led)
  {
    hide Cost;
    assert its[1..][1..] == [];
    assert Place(p, its[0], job, led) == led;
    hide Place;
    assert PlaceAll(p, its[1..][1..], job, Place(p, its[1], job, led)) == Place(p, its[1], job, led);
  }

  lemma SecondCandidate(sensitivity: bool, its: seq<Item>, job: Job, led: Ledger)
    requires Example(its, job)
    ensures Candidates(sensitivity, its, job, led)
         == var c := CandOf(sensitivity, its[1], job, led); if c.Some? then [c.value] else []
  {
    hide Cost;
    assert its[1..][1..] == [];
    assert Candidates(sensitivity, its[1..][1..], job, led) == [];
  }

  lemma ExampleCosts(a: seq<nat>, b: seq<nat>)
    requires a == [12800, 128] && b == [128, 128]
    ensures Cost(a, Standard(2)) == 4096000
    ensures Cost(b, Standard(2)) == 40960 && Cost(b, Affinely(6, 128)) == 102400
    ensures Cost(b, Standard(6)) == 106496 && Cost(b, Standard(8)) == 139264
  {
    Sizes(a, b);
    hide Cost, Product;
    AffineDensity(a, 2, 64);
    AffineDensity(b, 2, 64);
    AffineDensity(b, 6, 128);
    AffineDensity(b, 6, 64);
    AffineDensity(b, 8, 64);
  }

  lemma ExampleRaise(t: Tensor, c: Cand, job: Job, low: Ledger, high: Ledger)
    requires t == Tensor(WO, [128, 128]) && c == Cand(1.0, t, 6, 8) && job == Job(Standard(2), false, 1.0, 4964352.0)
    requires low == Ledger(map[WO := Affinely(6, 128)], 4198400) && high == Ledger(map[WO := Standard(8)], 4231168)
    ensures Ranked([c]) == [c] && Greedy([c], job, low, None) == high
  {
    ExampleCosts([12800, 128], t.shape);
    hide Cost, Product;
    assert [c][1..] == [];
    assert Ranked([c]) == Insert(c, Ranked([]));
    assert Widest(c, 8, low.bits, job.cap) == Some(8);
    assert Greedy([c], job, low, None) == Greedy([], job, Raise(c, job, low), None);
  }
}
