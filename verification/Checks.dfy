/** The balance checks: what each reading says, and when it asks for a refill. */
module Checks {
  import opened Options
  import opened Units

  datatype Reading<A> = Reading(balance: A, requestAmount: Option<A>, address: Option<string>)

  predicate Missing(x: Option<string>) { x == None || x == Some("") }

  // ----- The rule on whole amounts

  /** Thresholds in whole units; zeroIsFailure marks the checks that test `!result` on a bigint. */
  datatype Rule = Rule(min: int, max: int, zeroIsFailure: bool)

  predicate Sound(rule: Rule) { 0 <= rule.min <= rule.max }

  /** What a reading asks for; None as a reading is a fetch that failed. */
  function Request(rule: Rule, reading: Option<nat>): Option<int> {
    if reading == None || (rule.zeroIsFailure && reading.value == 0) then None
    else if reading.value < rule.min then Some(rule.max - reading.value)
    else None
  }

  /** No code checks min <= max. Every request is positive, at most max, and completes the balance
    * to max, for all balances, exactly when min <= max or no balance that counts as fetched can
    * lie below min. */
  lemma RequestsAreSoundIff(rule: Rule)
    ensures (forall b: nat :: Request(rule, Some(b)).Some? ==> 0 < Request(rule, Some(b)).value <= rule.max)
       <==> rule.min <= rule.max || rule.min <= if rule.zeroIsFailure then 1 else 0
  {
    if rule.min > rule.max && rule.min > if rule.zeroIsFailure then 1 else 0 {
      var b: nat := rule.min - 1;
      assert Request(rule, Some(b)) == Some(rule.max - b);
    }
  }

  /** A balance below min asks for exactly the difference to max, unless it is a zero balance that
    * the check takes for a failed fetch. */
  lemma RequestIff(rule: Rule, b: nat)
    ensures b < rule.min ==> (Request(rule, Some(b)) == Some(rule.max - b) <==> !(rule.zeroIsFailure && b == 0))
    ensures b >= rule.min || (rule.zeroIsFailure && b == 0) ==> Request(rule, Some(b)) == None
  {
  }

  // ----- The checks themselves

  /** TurboCreditsChecksService.checkCredits; winc is None where getBalance throws. */
  function CheckCredits(address: Option<string>, minCredits: Option<real>, maxCredits: Option<real>,
                        winc: Option<nat>): Reading<real>
  {
    if Missing(address) then Reading(0.0, None, None)
    else if minCredits == None || maxCredits == None || winc == None then Reading(0.0, None, address)
    else
      var credits := WincToCredits(winc.value);
      if credits < minCredits.value then Reading(credits, Some(maxCredits.value - credits), address)
      else Reading(credits, None, address)
  }

  /** BundlerChecksService.getOperatorBalance. */
  function OperatorBalance(address: Option<string>, minAr: real, maxAr: real, winston: Option<nat>): Reading<real> {
    if Missing(address) || winston == None then Reading(0.0, None, address)
    else
      var ar := WinstonToAr(winston.value);
      if ar < minAr then Reading(ar, Some(maxAr - ar), address) else Reading(ar, None, address)
  }

  /** HodlerChecksService.getRewardsPoolTokens and getOperatorEth, thresholds and balance in
    * units of 10^-18; result is None where the call throws. */
  function HodlerCheck(address: Option<string>, min: nat, max: nat, result: Option<nat>): Reading<int> {
    if Missing(address) || result == None || result.value == 0 then Reading(0, None, address)
    else if result.value < min then Reading(result.value, Some(max - result.value), address)
    else Reading(result.value, None, address)
  }

  /** The Turbo check with the top-up's conversion behind it is the whole-amount rule with both
    * thresholds rounded up to a winc. */
  lemma TurboFollowsRule(address: Option<string>, minCredits: real, maxCredits: real, winc: Option<nat>)
    requires !Missing(address)
    ensures var r := CheckCredits(address, Some(minCredits), Some(maxCredits), winc);
      (if r.requestAmount == None then None else Some(CreditsToWinc(r.requestAmount.value)))
      == Request(Rule(Ceil(minCredits * UNIT), Ceil(maxCredits * UNIT), false), winc)
  {
    if winc.Some? {
      WincIsExact(winc.value);
      TurboRefillReachesMax(maxCredits, winc.value);
      BelowIsBelowCeil(winc.value, minCredits * UNIT);
      assert WincToCredits(winc.value) < minCredits <==> winc.value as real < minCredits * UNIT;
    }
  }

  /** The bundler check with the send's conversion behind it, for any thresholds: it asks exactly
    * when the rule does whose thresholds are rounded up to a winston; what it asks for is the
    * rule's amount when rounded up, and is that amount exactly when max is whole in winston. */
  lemma BundlerFollowsRule(address: Option<string>, minAr: real, maxAr: real, winston: Option<nat>)
    requires !Missing(address)
    ensures var asked := OperatorBalance(address, minAr, maxAr, winston).requestAmount;
      var ruled := Request(Rule(Ceil(minAr * UNIT), Ceil(maxAr * UNIT), false), winston);
      && (asked.Some? <==> ruled.Some?)
      && (asked.Some? ==> Ceil(ArToWinston(asked.value)) == ruled.value)
      && (asked.Some? ==> (ArToWinston(asked.value) == ruled.value as real <==> Whole(maxAr * UNIT)))
  {
    if winston.Some? {
      ArRefillRoundsUp(maxAr, winston.value);
      BelowIsBelowCeil(winston.value, minAr * UNIT);
      assert WinstonToAr(winston.value) < minAr <==> winston.value as real < minAr * UNIT;
    }
  }

  /** A wallet that is not configured is not read: zero, and nothing asked for. The credit checks then
    * report no address, and ask for nothing without both thresholds either. */
  lemma UnconfiguredReports(address: Option<string>, min: Option<real>, max: Option<real>, lo: nat, hi: nat,
                            fetched: Option<nat>)
    ensures Missing(address) ==>
      && CheckCredits(address, min, max, fetched) == Reading(0.0, None, None)
      && (forall a, b :: OperatorBalance(address, a, b, fetched) == Reading(0.0, None, address))
      && HodlerCheck(address, lo, hi, fetched) == Reading(0, None, address)
    ensures !Missing(address) && (min == None || max == None) ==>
      CheckCredits(address, min, max, fetched) == Reading(0.0, None, address)
    ensures Missing(address) <==> !(address.Some? && |address.value| > 0)
  {
  }

  lemma HodlerFollowsRule(address: Option<string>, min: nat, max: nat, result: Option<nat>)
    requires !Missing(address)
    ensures HodlerCheck(address, min, max, result).requestAmount == Request(Rule(min, max, true), result)
  {
  }

  /** Every check reports the balance it read, converted exactly, with the wallet's address; what
    * it could not read is reported as zero, and asks for nothing. */
  lemma ReadingsReport(address: Option<string>, min: real, max: real, lo: nat, hi: nat, fetched: Option<nat>)
    requires !Missing(address)
    ensures var ok := fetched.Some?;
      var n := if ok then fetched.value else 0;
      var turbo := CheckCredits(address, Some(min), Some(max), fetched);
      var bundler := OperatorBalance(address, min, max, fetched);
      var hodler := HodlerCheck(address, lo, hi, fetched);
      && turbo.balance == bundler.balance == n as real / UNIT && hodler.balance == n
      && turbo.address == bundler.address == hodler.address == address
      && (!ok ==> turbo.requestAmount == None && bundler.requestAmount == None && hodler.requestAmount == None)
  {
    if fetched.Some? {
      WincIsExact(fetched.value);
    }
  }
}
