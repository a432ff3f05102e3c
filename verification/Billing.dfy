/** Token usage and money (llm_gateway/cost.py, PricingConfig in llm_gateway/config.py).

    Prices are exact reals per 1,000,000 tokens. */
module Billing {
  import opened Json

  /** total_tokens as reported: absent, null, a bool or a string count as no total. */
  datatype Total = NoTotal | Total(n: int)

  datatype UsageBlock = UsageBlock(prompt: Option<int>, completion: Option<int>, total: Total,
                                   cached: Option<int>, reasoning: Option<int>)

  datatype Usage = Usage(prompt: int, completion: int, cached: int, reasoning: int)

  function OrZero(x: Option<int>): int { if x.Some? then x.value else 0 }

  function FoldReasoning(prompt: int, completion: int, reasoning: int, total: Total): int {
    if reasoning <= 0 then completion
    else if total.NoTotal? then completion
    else if total.n == prompt + completion + reasoning then completion + reasoning
    else completion
  }

  function ExtractUsage(block: Option<UsageBlock>): Option<Usage> {
    match block
    case None => None
    case Some(u) =>
      var prompt, completion, reasoning := OrZero(u.prompt), OrZero(u.completion), OrZero(u.reasoning);
      Some(Usage(prompt, FoldReasoning(prompt, completion, reasoning, u.total), OrZero(u.cached), reasoning))
  }

  /** Absent counts read as none; only the completion is adjusted. */
  lemma WhatIsReported(block: UsageBlock)
    ensures ExtractUsage(None).None?
    ensures var u := ExtractUsage(Some(block));
      && u.Some?
      && u.value.prompt == (if block.prompt.Some? then block.prompt.value else 0)
      && u.value.cached == (if block.cached.Some? then block.cached.value else 0)
      && u.value.reasoning == (if block.reasoning.Some? then block.reasoning.value else 0)
      && (u.value.reasoning <= 0 ==>
            u.value.completion == if block.completion.Some? then block.completion.value else 0)
  {
  }

  /** One completion of v visible and r reasoning tokens, as OpenAI and as Vertex report it. */
  function OpenAiBlock(p: int, v: int, r: int, cached: Option<int>): UsageBlock {
    UsageBlock(Some(p), Some(v + r), Total(p + v + r), cached, Some(r))
  }

  function VertexBlock(p: int, v: int, r: int, cached: Option<int>): UsageBlock {
    UsageBlock(Some(p), Some(v), Total(p + v + r), cached, Some(r))
  }

  /** Both dialects bill the same call the same: every generated token once. */
  lemma DialectsAgree(p: nat, v: nat, r: nat, cached: Option<int>)
    ensures ExtractUsage(Some(OpenAiBlock(p, v, r, cached))) == ExtractUsage(Some(VertexBlock(p, v, r, cached)))
    ensures ExtractUsage(Some(VertexBlock(p, v, r, cached))) == Some(Usage(p, v + r, OrZero(cached), r))
  {
    assert r > 0 ==> p + v + r != p + (v + r) + r;
  }

  /** Folding never invents a charge: what is billed stays within what the body itself accounts for, and
      it adds to the reported completion exactly when the body's own total demands it. */
  lemma FoldSound(prompt: int, completion: int, reasoning: int, total: Total)
    ensures var billed := FoldReasoning(prompt, completion, reasoning, total);
      && billed >= completion
      && (billed != completion <==> reasoning > 0 && total == Total(prompt + completion + reasoning))
      && (billed != completion ==> total == Total(prompt + billed))
  {
  }

  // ---- Prices ----

  datatype Pricing = Pricing(input: real, output: real, cachedInput: Option<real>) {
    ghost predicate Valid() {
      input >= 0.0 && output >= 0.0 && (cachedInput.Some? ==> cachedInput.value >= 0.0)
    }

    function CachedRate(): real { if cachedInput.Some? then cachedInput.value else input }
  }

  /** A key of the pricing mapping. */
  datatype Field = Absent | NotNumeric | Number(x: real)

  function ParseField(f: Field, default: Option<real>): Option<Option<real>> {
    match f
    case Absent => Some(default)
    case NotNumeric => None
    case Number(x) => if x < 0.0 then None else Some(Some(x))
  }

  /** None stands for the configuration error. */
  function ParsePricing(input: Field, output: Field, cached: Field): (r: Option<Pricing>)
    ensures r.None? <==> exists f :: f in {input, output, cached} && (f.NotNumeric? || (f.Number? && f.x < 0.0))
    ensures r.Some? ==> r.value.Valid()
    ensures r.Some? ==>
      && r.value.input == (if input.Number? then input.x else 0.0)
      && r.value.output == (if output.Number? then output.x else 0.0)
      && r.value.cachedInput == if cached.Number? then Some(cached.x) else None
  {
    var i, o, c := ParseField(input, Some(0.0)), ParseField(output, Some(0.0)), ParseField(cached, None);
    if i.None? || o.None? || c.None? then
      var bad := if i.None? then input else if o.None? then output else cached;
      assert bad in {input, output, cached};
      None
    else
      Some(Pricing(i.value.value, o.value.value, c.value))
  }

  function Max(a: int, b: int): int { if a >= b then a else b }

  function Min(a: int, b: int): int { if a <= b then a else b }

  function Price(tokens: int, rate: real): real { tokens as real * rate / 1000000.0 }

  function CostUsd(pr: Pricing, prompt: int, completion: int, cached: int): real {
    var k := Max(0, Min(cached, prompt));
    var full := Max(0, prompt - k);
    Price(full, pr.input) + Price(k, pr.CachedRate()) + Price(Max(0, completion), pr.output)
  }

  /** None, not zero, when the backend declares no price or the upstream reported no usage. */
  function CostOf(pr: Option<Pricing>, usage: Option<Usage>): Option<real> {
    if usage.None? || pr.None? then None
    else Some(CostUsd(pr.value, usage.value.prompt, usage.value.completion, usage.value.cached))
  }

  /** A million tokens of one kind cost that kind's rate. */
  lemma UnitPrices(pr: Pricing)
    ensures CostUsd(pr, 1000000, 0, 0) == pr.input && CostUsd(pr, 0, 1000000, 0) == pr.output
    ensures CostUsd(pr, 1000000, 0, 1000000) == pr.CachedRate()
  {
  }

  lemma PriceAdds(a: int, b: int, rate: real)
    ensures Price(a + b, rate) == Price(a, rate) + Price(b, rate)
  {
    assert (a + b) as real * rate == a as real * rate + b as real * rate;
  }

  /** Two calls together cost what they cost apart: with UnitPrices this leaves one possible tariff. */
  lemma CostAdds(pr: Pricing, p: nat, c: nat, k: nat, p': nat, c': nat, k': nat)
    requires k <= p && k' <= p'
    ensures CostUsd(pr, p + p', c + c', k + k') == CostUsd(pr, p, c, k) + CostUsd(pr, p', c', k')
  {
    PriceAdds(p - k, p' - k', pr.input);
    PriceAdds(k, k', pr.CachedRate());
    PriceAdds(c, c', pr.output);
  }

  /** Whatever cached count is reported, it counts as some number between nothing and the whole prompt. */
  lemma CachedClamped(pr: Pricing, p: nat, c: int, cached: int)
    ensures cached < 0 ==> CostUsd(pr, p, c, cached) == CostUsd(pr, p, c, 0)
    ensures cached > p ==> CostUsd(pr, p, c, cached) == CostUsd(pr, p, c, p)
  {
  }

  lemma PriceMonotone(a: int, b: int, rate: real)
    requires a <= b && rate >= 0.0
    ensures Price(a, rate) <= Price(b, rate)
  {
    assert a as real * rate <= b as real * rate;
  }

  /** More tokens never cost less, and no call costs less than nothing. */
  lemma CostMonotone(pr: Pricing, p: int, c: int, p': int, c': int, cached: int)
    requires pr.Valid() && p <= p' && c <= c'
    ensures 0.0 <= CostUsd(pr, p, c, cached) <= CostUsd(pr, p', c', cached)
  {
    var k, k' := Max(0, Min(cached, p)), Max(0, Min(cached, p'));
    PriceMonotone(0, Max(0, p - k), pr.input);
    PriceMonotone(0, k, pr.CachedRate());
    PriceMonotone(0, Max(0, c), pr.output);
    PriceMonotone(Max(0, p - k), Max(0, p' - k'), pr.input);
    PriceMonotone(k, k', pr.CachedRate());
    PriceMonotone(Max(0, c), Max(0, c'), pr.output);
  }

  /** Reporting cached tokens lowers or keeps the bill exactly when the cached rate is no dearer than the
      input rate, or nothing of the prompt counts as cached; any reported count is allowed. */
  lemma CachedDiscount(pr: Pricing, p: int, c: int, cached: int)
    ensures CostUsd(pr, p, c, cached) <= CostUsd(pr, p, c, 0)
      <==> Min(cached, p) <= 0 || pr.CachedRate() <= pr.input
  {
    var k := Max(0, Min(cached, p));
    if k > 0 {
      var x, y, m := pr.input, pr.CachedRate(), k as real;
      assert Price(p, x) == Price(p - k, x) + Price(k, x) by {
        assert p as real == (p - k) as real + m;
        assert p as real * x == (p - k) as real * x + m * x;
      }
      assert Price(0, y) == 0.0;
      assert CostUsd(pr, p, c, 0) == Price(p, x) + Price(Max(0, c), pr.output);
      assert CostUsd(pr, p, c, cached) == Price(p - k, x) + Price(k, y) + Price(Max(0, c), pr.output);
      Order(m, y, x);
    } else {
      assert CostUsd(pr, p, c, cached) == CostUsd(pr, p, c, 0);
    }
  }

  lemma Order(m: real, y: real, x: real)
    requires m > 0.0
    ensures m * y <= m * x <==> y <= x
  {
    if y <= x { assert m * (x - y) >= 0.0; } else { assert m * (y - x) > 0.0; }
  }
}
