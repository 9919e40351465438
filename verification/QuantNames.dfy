/** Name tests on tensor paths, and the per-tensor precision rule built from them
    (omlx/oq.py, universal_quant_predicate and its helpers). */
module QuantNames {
  import opened Common

  datatype Mode = Affine | Mxfp4 | Mxfp8

  /** One entry of the boost map: bit width, group size and mode. */
  datatype Quant = Quant(bits: nat, group: pos, mode: Mode)

  /** The three outcomes of the rule: keep fp16, use the base width, or override it. */
  datatype Verdict = Skip | Default | Use(quant: Quant)

  datatype Level = L2 | L3 | L3_5 | L4 | L5 | L6 | L8

  /** The part of the model configuration the rule reads. */
  datatype Config = Config(
    layers: nat,
    experts: nat,
    hidden: nat,
    nonQuantizable: set<string>,
    budgetPlan: bool,
    boosts: map<string, Quant>,
    scores: map<nat, real>)

  const GROUP: pos := 64

  function BaseBits(level: Level): nat {
    match level
    case L2 => 2
    case L3 => 3
    case L3_5 => 3
    case L4 => 4
    case L5 => 5
    case L6 => 6
    case L8 => 8
  }

  /** Bit widths the quantiser supports. */
  predicate ValidBits(n: int) { n in {2, 3, 4, 5, 6, 8} }

  function Affinely(bits: nat, group: pos): Quant { Quant(bits, group, Affine) }

  // ---------- string tests ----------

  predicate Has(path: string, part: string) {
    exists i {:trigger path[i..]} :: 0 <= i <= |path| && part <= path[i..]
  }

  predicate HasAny(path: string, parts: seq<string>) {
    exists k :: 0 <= k < |parts| && Has(path, parts[k])
  }

  function Lower(s: string): (r: string)
    ensures |r| == |s|
  {
    seq(|s|, i requires 0 <= i < |s| =>
      if 'A' <= s[i] <= 'Z' then (s[i] as int + 32) as char else s[i])
  }

  function Normalize(path: string): string {
    if EndsWith(path, ".weight") || EndsWith(path, ".scales") || EndsWith(path, ".biases")
    then path[..|path| - 7]
    else path
  }

  predicate IsVision(path: string) {
    HasAny(path, ["visual.", "vision_", "patch_embed", "pos_embed", "image_newline",
                  "multi_modal_projector", "visual.merger", "image_norm", "temporal_embed"])
  }

  predicate IsAudio(path: string) { Has(path, "audio_tower") }

  predicate IsRouter(path: string) {
    || EndsWith(path, "mlp.gate") || EndsWith(path, ".router") || EndsWith(path, ".router.layer")
    || (EndsWith(path, ".gate") && !Has(path, "gate_proj"))
    || (Has(path, ".gate.") && !Has(path, "gate_proj"))
  }

  predicate IsRoutedExpert(path: string) {
    || Has(path, "switch_mlp")
    || (Has(path, "experts") && !Has(path, "shared_expert"))
    || (Has(path, "block_sparse_moe") && !Has(path, "shared_expert"))
  }

  predicate IsMandatory(path: string) {
    HasAny(path, ["lm_head", "embeddings", "embed_tokens", "wte"])
  }

  predicate IsDownProjection(path: string) { HasAny(path, ["down_proj", "w2"]) }

  // ---------- layer index ----------

  predicate IsDigit(c: char) { '0' <= c <= '9' }

  /** Length of the leading run of digits. */
  function DigitRun(s: string): (n: nat)
    ensures n <= |s|
    ensures forall k :: 0 <= k < n ==> IsDigit(s[k])
    ensures n < |s| ==> !IsDigit(s[n])
  {
    if s == [] || !IsDigit(s[0]) then 0 else 1 + DigitRun(s[1..])
  }

  function ReadDecimal(s: string): nat
    requires forall k :: 0 <= k < |s| ==> IsDigit(s[k])
  {
    if s == [] then 0
    else
      assert IsDigit(s[|s| - 1]);
      10 * ReadDecimal(s[..|s| - 1]) + (s[|s| - 1] as int - 48)
  }

  /** First match of "layers.<digits>." read as a number; None when there is no match. */
  function LayerIndex(path: string): Option<nat> {
    if path == [] then None
    else if "layers." <= path then
      var rest := path[7..];
      var n := DigitRun(rest);
      if n > 0 && n < |rest| && rest[n] == '.' then Some(ReadDecimal(rest[..n])) else LayerIndex(path[1..])
    else LayerIndex(path[1..])
  }

  // ---------- the rule ----------

  /** A layer is sensitive when its score reaches the k-th largest one, k = max(1, n / 4): fewer
      than k scores exceed it. Without a score map, the first and last eighth of the layers are. */
  predicate SensitiveLayer(layer: nat, cfg: Config) {
    if cfg.scores == map[] then
      layer < cfg.layers / 8 || layer >= 7 * cfg.layers / 8
    else
      var own := if layer in cfg.scores then cfg.scores[layer] else 0.0;
      |Better(own, cfg.scores)| < if |cfg.scores| / 4 < 1 then 1 else |cfg.scores| / 4
  }

  function Better(score: real, scores: map<nat, real>): set<nat> { set j | j in scores && scores[j] > score }

  predicate Sensitive(path: string, cfg: Config) {
    LayerIndex(path).Some? && SensitiveLayer(LayerIndex(path).value, cfg)
  }

  function GroupFor(path: string, cfg: Config): pos {
    if IsRouter(path) then 64 else if cfg.experts >= 150 then 128 else 64
  }

  function AtLeast(n: nat, path: string, cfg: Config, level: Level): Verdict {
    Use(Affinely(if n < BaseBits(level) then BaseBits(level) else n, GroupFor(path, cfg)))
  }

  /** Tensors the rule keeps in fp16 before looking at any boost. */
  predicate KeptInFp16(path: string, cfg: Config) {
    || path in cfg.nonQuantizable
    || IsRouter(path)
    || (!SharedGate(path)
        && (IsVision(path) || IsAudio(path)
            || HasAny(Lower(path), ["ssm_alpha", "ssm_beta", "a_log", "time_decay", "time_faaaa"])
            || EndsWith(path, ".D") || EndsWith(Lower(path), "dt_bias")))
  }

  predicate SharedGate(path: string) {
    Has(path, "shared_expert_gate") && !Has(path, "gate_proj")
  }

  /** What the rules ask for a tensor, before the level is known. */
  datatype Wish = KeepFp16 | Fixed(quant: Quant) | NoWish | Wants(bits: nat) | ExpertDown

  function Granted(w: Wish, path: string, cfg: Config, level: Level): Verdict {
    match w
    case KeepFp16 => Skip
    case Fixed(q) => Use(q)
    case NoWish => Default
    case Wants(n) => AtLeast(n, path, cfg, level)
    case ExpertDown => if level == L3_5 then AtLeast(4, path, cfg, level) else Default
  }

  /** universal_quant_predicate. Every level has full protection, so only that half is reachable. */
  function UniversalRule(rawPath: string, cfg: Config, level: Level): Verdict {
    var path := Normalize(rawPath);
    Granted(Asked(path, cfg), path, cfg, level)
  }

  function Asked(path: string, cfg: Config): Wish {
    if KeptInFp16(path, cfg) then KeepFp16
    else if SharedGate(path) then Fixed(Affinely(8, 64))
    else if Has(Lower(path), "conv1d") && Has(Lower(path), "linear_attn") then Wants(8)
    else if Has(Lower(path), "linear_attn.out_proj") then Wants(5)
    else if path in cfg.boosts then Fixed(cfg.boosts[path])
    else if cfg.budgetPlan then
      if HasAny(path, ["ssm_output", "ssm_out"]) || Has(path, "lora.2") then Wants(8) else NoWish
    else FullProtection(path, cfg)
  }

  function FullProtection(path: string, cfg: Config): (w: Wish)
    ensures !w.KeepFp16? && !w.Fixed? && (w.Wants? ==> ValidBits(w.bits))
  {
    var shared := Has(path, "shared_expert");
    var huge := cfg.experts >= 512 && cfg.hidden >= 4096;
    if HasAny(path, ["ssm_output", "ssm_out"]) || Has(path, "lora.2") then Wants(8)
    else if HasAny(path, ["lm_head", "output.weight", "classifier"]) then Wants(6)
    else if Has(path, "cross_attn") && Has(path, "o_proj") then Wants(6)
    else if HasAny(path, ["kv_a_proj_with_mqa", "kv_b_proj", "q_a_proj", "q_b_proj"]) then Wants(6)
    else if Has(path, "o_proj") && !shared && cfg.experts == 0 then Wants(5)
    else if shared && !EndsWith(path, "shared_expert_gate") then Wants(8)
    else if huge && Has(path, "gate_proj") && !shared then Wants(4)
    else if huge && Has(path, "down_proj") && !shared then Wants(3)
    else ByProjection(path, cfg)
  }

  function ByProjection(path: string, cfg: Config): (w: Wish)
    ensures !w.KeepFp16? && !w.Fixed? && (w.Wants? ==> ValidBits(w.bits))
  {
    var sensitive := Sensitive(path, cfg);
    if HasAny(path, ["v_proj", "v_a_proj", "v_b_proj"]) then
      if sensitive then Wants(6) else NoWish
    else if HasAny(path, ["down_proj", "w2", "mlp.fc2", "wo"]) then
      if cfg.experts > 0 && !Has(path, "shared_expert") && HasAny(path, ["switch_mlp", "experts"]) then ExpertDown
      else if sensitive then Wants(6) else Wants(5)
    else if sensitive && HasAny(path, ["q_proj", "k_proj", "qkv_proj", "in_proj_qkv", "attn_qkv"]) then Wants(5)
    else if HasAny(path, ["in_proj_z", "in_proj_a", "in_proj_b", "delta_net"]) then Wants(5)
    else if HasAny(path, ["mixer.in_proj", "mixer.out_proj", "x_proj", "dt_proj"]) then Wants(5)
    else NoWish
  }

  // ---------- what the rule guarantees ----------

  /** A supported affine width at or above the base, in the given group size. */
  ghost predicate SoundAt(v: Verdict, level: Level, group: pos) {
    v.Use? ==>
      && ValidBits(v.quant.bits) && BaseBits(level) <= v.quant.bits
      && v.quant.mode == Affine && v.quant.group == group
  }

  /** The boost map decides about a path of its own that no rule before it has claimed. */
  predicate Boosted(path: string, cfg: Config) {
    && path in cfg.boosts && !KeptInFp16(path, cfg) && !SharedGate(path)
    && !(Has(Lower(path), "conv1d") && Has(Lower(path), "linear_attn")) && !Has(Lower(path), "linear_attn.out_proj")
  }

  /** What the planner and the conversion rely on, for every path and configuration. A boost is taken
      as it is; any other override is a supported width at or above the base, in groups of 64 unless
      there are 150 or more experts; and a tensor is kept in fp16 regardless of level, scores, boosts
      and budget mode. */
  lemma RuleIsSound(path: string, cfg: Config, level: Level)
    ensures var p, v := Normalize(path), UniversalRule(path, cfg, level);
      && (v.Skip? <==> KeptInFp16(p, cfg))
      && if Boosted(p, cfg) then v == Use(cfg.boosts[p])
         else SoundAt(v, level, if cfg.experts >= 150 && !SharedGate(p) then 128 else 64)
  {
    hide HasAny, Has, EndsWith, IsRouter, FullProtection, Lower, IsVision, IsAudio, SharedGate, Normalize;
  }

  /** The number of a level, as a user gives it. */
  function Number(level: Level): real {
    match level
    case L2 => 2.0
    case L3 => 3.0
    case L3_5 => 3.5
    case L4 => 4.0
    case L5 => 5.0
    case L6 => 6.0
    case L8 => 8.0
  }

  /** The base width of a level is its number in whole bits, and supported. */
  lemma BaseIsWhole(level: Level)
    ensures BaseBits(level) == Number(level).Floor && ValidBits(BaseBits(level))
  {
  }

  /** The width a verdict comes to. */
  function Width(v: Verdict, level: Level): nat {
    match v
    case Skip => 16
    case Default => BaseBits(level)
    case Use(q) => q.bits
  }

  lemma GrantedGrows(w: Wish, path: string, cfg: Config, a: Level, b: Level)
    requires Number(a) <= Number(b)
    ensures Width(Granted(w, path, cfg, a), a) <= Width(Granted(w, path, cfg, b), b)
  {
    hide GroupFor;
  }

  /** A higher level never makes any tensor narrower. */
  lemma HigherLevelsAreWider(path: string, cfg: Config, a: Level, b: Level)
    requires Number(a) <= Number(b)
    ensures Width(UniversalRule(path, cfg, a), a) <= Width(UniversalRule(path, cfg, b), b)
  {
    var p := Normalize(path);
    GrantedGrows(Asked(p, cfg), p, cfg, a, b);
    hide Asked, Normalize, Granted, Width;
  }

  /** The level only lifts: other than in fp16 and for what is fixed, a tensor gets what it gets at level 2
      or the base of the level if that is wider; at level 3.5 some get 4 bits. */
  lemma LevelOnlyLifts(path: string, cfg: Config, level: Level)
    ensures var p := Normalize(path);
      var low, now := Width(UniversalRule(path, cfg, L2), L2), Width(UniversalRule(path, cfg, level), level);
      if KeptInFp16(p, cfg) || SharedGate(p) || Boosted(p, cfg) then now == low
      else now == Max(BaseBits(level), low) || (level == L3_5 && now == 4 && low == 2)
  {
    var p := Normalize(path);
    hide HasAny, Has, EndsWith, IsRouter, FullProtection, Lower, IsVision, IsAudio, SharedGate, Normalize, GroupFor;
    if Asked(p, cfg).Wants? { WishesAreWide(p, cfg); }
  }

  lemma WishesAreWide(path: string, cfg: Config)
    requires Asked(path, cfg).Wants?
    ensures Asked(path, cfg).bits >= 3
  {
    hide HasAny, Has, EndsWith, IsRouter, Lower, IsVision, IsAudio, SharedGate, Sensitive;
  }

  // ---------- sensitive layers ----------

  /** A tensor of a sensitive layer is never narrower than it would be elsewhere. */
  lemma SensitiveNeverNarrower(path: string, cfg: Config, other: map<nat, real>, level: Level)
    requires Sensitive(Normalize(path), cfg.(scores := other)) ==> Sensitive(Normalize(path), cfg)
    ensures Width(UniversalRule(path, cfg.(scores := other), level), level) <= Width(UniversalRule(path, cfg, level), level)
  {
    hide HasAny, Has, EndsWith, IsRouter, Lower, IsVision, IsAudio, SharedGate, Sensitive, Normalize;
  }

  lemma {:induction false} BestOf(layers: set<nat>, scores: map<nat, real>) returns (best: nat)
    requires layers != {} && layers <= scores.Keys
    ensures best in layers && forall l <- layers :: scores[l] <= scores[best]
  {
    best :| best in layers;
    if layers != {best} {
      var rest := BestOf(layers - {best}, scores);
      if scores[best] < scores[rest] { best := rest; }
    }
  }

  function Top(cfg: Config): set<nat> { set l <- cfg.scores | SensitiveLayer(l, cfg) }

  function Quota(cfg: Config): nat { Max(1, |cfg.scores| / 4) }

  lemma InTop(cfg: Config, l: nat)
    requires cfg.scores != map[] && l in cfg.scores
    ensures l in Top(cfg) <==> |Better(cfg.scores[l], cfg.scores)| < Quota(cfg)
  {
    hide Better;
  }

  lemma TopIsUpward(cfg: Config, a: nat, b: nat)
    requires cfg.scores != map[] && a in Top(cfg) && b in cfg.scores && cfg.scores[a] <= cfg.scores[b]
    ensures b in Top(cfg)
  {
    InTop(cfg, a);
    InTop(cfg, b);
    SubsetSize(Better(cfg.scores[b], cfg.scores), Better(cfg.scores[a], cfg.scores));
  }

  lemma TopIsLarge(cfg: Config)
    requires cfg.scores != map[]
    ensures |Top(cfg)| >= Quota(cfg)
  {
    var others := cfg.scores.Keys - Top(cfg);
    if others == {} {
      assert Top(cfg) == cfg.scores.Keys && |cfg.scores.Keys| == |cfg.scores|;
      hide Top;
    } else {
      var x := BestOf(others, cfg.scores);
      InTop(cfg, x);
      assert Better(cfg.scores[x], cfg.scores) <= Top(cfg);
      SubsetSize(Better(cfg.scores[x], cfg.scores), Top(cfg));
    }
  }

  lemma TopIsSmall(cfg: Config)
    requires cfg.scores != map[]
    requires forall a <- cfg.scores, b <- cfg.scores :: a != b ==> cfg.scores[a] != cfg.scores[b]
    ensures |Top(cfg)| <= Quota(cfg)
  {
    TopIsLarge(cfg);
    var least := WorstOf(Top(cfg), cfg.scores);
    InTop(cfg, least);
    assert Top(cfg) - {least} <= Better(cfg.scores[least], cfg.scores);
    SubsetSize(Top(cfg) - {least}, Better(cfg.scores[least], cfg.scores));
  }

  /** With a score map, the sensitive layers are the top of it: with a layer also every layer that scores as
      high, a quarter of the layers at least, and one in any case; without ties, no more than that. */
  lemma SensitiveAreTheTop(cfg: Config)
    requires cfg.scores != map[]
    ensures var top := set l <- cfg.scores | SensitiveLayer(l, cfg);
      && (forall a <- top, b <- cfg.scores :: cfg.scores[a] <= cfg.scores[b] ==> b in top)
      && |top| >= Max(1, |cfg.scores| / 4)
      && ((forall a <- cfg.scores, b <- cfg.scores :: a != b ==> cfg.scores[a] != cfg.scores[b]) ==>
            |top| == Max(1, |cfg.scores| / 4))
  {
    assert Top(cfg) == set l <- cfg.scores | SensitiveLayer(l, cfg);
    hide Top, SensitiveLayer;
    forall a, b | a in Top(cfg) && b in cfg.scores && a in cfg.scores && cfg.scores[a] <= cfg.scores[b] ensures b in Top(cfg) {
      TopIsUpward(cfg, a, b);
    }
    TopIsLarge(cfg);
    if forall a <- cfg.scores, b <- cfg.scores :: a != b ==> cfg.scores[a] != cfg.scores[b] { TopIsSmall(cfg); }
  }

  lemma {:induction false} WorstOf(layers: set<nat>, scores: map<nat, real>) returns (worst: nat)
    requires layers != {} && layers <= scores.Keys
    ensures worst in layers && forall l <- layers :: scores[worst] <= scores[l]
  {
    worst :| worst in layers;
    if layers != {worst} {
      var rest := WorstOf(layers - {worst}, scores);
      if scores[rest] < scores[worst] { worst := rest; }
    }
  }

  lemma {:induction false} SubsetSize(a: set<nat>, b: set<nat>)
    requires a <= b
    ensures |a| <= |b|
  {
    if a != {} {
      var x :| x in a;
      SubsetSize(a - {x}, b - {x});
    }
  }

  /** Without a score map, a layer is sensitive exactly if it lies within the first eighth of the layers or
      reaches into the last one; with one, a layer that was not scored is if too few score above zero. */
  lemma OtherSensitiveLayers(layer: nat, cfg: Config)
    ensures cfg.scores == map[] ==>
      (SensitiveLayer(layer, cfg) <==> 8 * (layer + 1) <= cfg.layers || 7 * cfg.layers < 8 * (layer + 1))
    ensures cfg.scores != map[] && layer !in cfg.scores ==>
      (SensitiveLayer(layer, cfg) <==> |set j | j in cfg.scores && cfg.scores[j] > 0.0| < Max(1, |cfg.scores| / 4))
    {
    assert Better(0.0, cfg.scores) == set j | j in cfg.scores && cfg.scores[j] > 0.0;
  }

  // ---------- reading a layer's number ----------

  function Decimal(n: nat): (s: string)
    ensures s != "" && forall k :: 0 <= k < |s| ==> IsDigit(s[k])
  {
    (if n < 10 then "" else Decimal(n / 10)) + [(48 + n % 10) as char]
  }

  lemma {:induction false} DecimalReads(n: nat)
    ensures ReadDecimal(Decimal(n)) == n
  {
    var s := Decimal(n);
    if n >= 10 {
      DecimalReads(n / 10);
      assert s[..|s| - 1] == Decimal(n / 10);
    } else {
      assert s[..|s| - 1] == "";
    }
  }

  lemma {:induction false} RunOfDigits(digits: string, rest: string)
    requires (forall k :: 0 <= k < |digits| ==> IsDigit(digits[k])) && rest != "" && !IsDigit(rest[0])
    ensures DigitRun(digits + rest) == |digits|
  {
    if digits == "" {
      assert digits + rest == rest;
    } else {
      assert (digits + rest)[1..] == digits[1..] + rest;
      RunOfDigits(digits[1..], rest);
    }
  }

  /** The first "layers.", a number and a dot: that number is the layer. */
  lemma {:induction false} LayerIndexReads(before: string, n: nat, rest: string)
    requires !Has(before, "layers.")
    ensures LayerIndex(before + "layers." + Decimal(n) + "." + rest) == Some(n)
  {
    var digits := Decimal(n);
    hide Decimal, Has, DigitRun, ReadDecimal;
    if before == "" {
      assert before + "layers." + digits + "." + rest == "layers." + (digits + ("." + rest));
      ReadsHere(n, rest);
    } else {
      var path, tail := before + "layers." + digits + "." + rest, before[1..] + "layers." + digits + "." + rest;
      assert path[1..] == tail;
      if Has(before[1..], "layers.") { HasInTail(before, "layers."); }
      LayerIndexReads(before[1..], n, rest);
      StartsLater(before, digits + "." + rest);
      assert path == before + "layers." + (digits + "." + rest);
    }
  }

  lemma ReadsHere(n: nat, rest: string)
    ensures LayerIndex("layers." + (Decimal(n) + ("." + rest))) == Some(n)
  {
    var digits, more := Decimal(n), "." + rest;
    var path := "layers." + (digits + more);
    RunOfDigits(digits, more);
    DecimalReads(n);
    hide Decimal, DigitRun, ReadDecimal;
    assert path[7..] == digits + more && (digits + more)[..|digits|] == digits && (digits + more)[|digits|] == '.';
  }

  lemma HasInTail(path: string, part: string)
    requires path != "" && Has(path[1..], part)
    ensures Has(path, part)
  {
    var i :| 0 <= i <= |path[1..]| && part <= path[1..][i..];
    assert path[1..][i..] == path[i + 1..];
  }

  /** What is put before it does not run into it. */
  lemma StartsLater(before: string, rest: string)
    requires before != ""
    ensures "layers." <= before + "layers." + rest ==> Has(before, "layers.")
  {
    var path := before + "layers." + rest;
    assert |before| < 7 ==> path[|before|] == 'l' && "layers."[|before|] != 'l';
    if "layers." <= path {
      if |before| < 7 { PrefixAt("layers.", path, |before|); }
      assert before[..7] == path[..7];
      assert "layers." <= before[0..];
    }
  }

  lemma PrefixAt(part: string, path: string, k: nat)
    requires part <= path && k < |part|
    ensures path[k] == part[k]
  {
  }
}
