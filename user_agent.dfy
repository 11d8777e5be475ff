/** JsfServletUtils.isMobile: the mobile-device test on the User-Agent header. */
module UserAgent {
  import opened Wrappers
  import opened JavaText

  /** The operating systems whose name in a User-Agent marks a mobile device. */
  const Mobiles: seq<string> := ["android", "iphone", "ipod", "symbian"]

  /** The agent, upper-cased, contains one of the upper-cased keywords. */
  predicate MobileAgent(agent: string) {
    exists m | m in Mobiles :: Contains(Upper(agent), Upper(m))
  }

  /**
   * isMobile on the User-Agent header value `userAgent`; an absent header
   * (None) is the NullPointerException of upper-casing null.
   */
  method IsMobile(userAgent: Option<string>) returns (r: Result<bool>)
    ensures userAgent.None? <==> r == Err(NullPointer)
    ensures userAgent.Some? ==> r == Ok(MobileAgent(userAgent.value))
  {
    if userAgent.None? {
      return Err(NullPointer);
    }
    var agent := Upper(userAgent.value);
    var i := 0;
    while i < |Mobiles|
      invariant 0 <= i <= |Mobiles|
      invariant forall j :: 0 <= j < i ==> !Contains(agent, Upper(Mobiles[j]))
    {
      if Contains(agent, Upper(Mobiles[i])) {
        return Ok(true);
      }
      i := i + 1;
    }
    return Ok(false);
  }

  /** Upper-casing or lower-casing the agent does not change the answer. */
  lemma MobileAgentIgnoresCase(agent: string)
    ensures MobileAgent(Upper(agent)) == MobileAgent(agent)
    ensures MobileAgent(Lower(agent)) == MobileAgent(agent)
  {
    UpperOfLower(agent);
    UpperIdempotent(agent);
  }

  /** A mobile agent stays mobile whatever text surrounds it. */
  lemma MobileAgentExtended(p: string, agent: string, q: string)
    requires MobileAgent(agent)
    ensures MobileAgent(p + agent + q)
  {
    var m :| m in Mobiles && Contains(Upper(agent), Upper(m));
    ContainsExtended(Upper(p), Upper(agent), Upper(q), Upper(m));
    UpperAppend(p, agent);
    UpperAppend(p + agent, q);
  }

  /** Every keyword, in any letter case, is a mobile agent by itself. */
  lemma KeywordIsMobile(m: string)
    requires m in Mobiles
    ensures MobileAgent(m) && MobileAgent(Upper(m))
  {
    assert OccursAt(Upper(m), Upper(m), 0);
    MobileAgentIgnoresCase(m);
  }

  /** An agent shorter than the shortest keyword ("ipod") is never mobile. */
  lemma ShortAgentIsNotMobile(agent: string)
    requires |agent| < 4
    ensures !MobileAgent(agent)
  {
    forall m | m in Mobiles
      ensures !Contains(Upper(agent), Upper(m))
    {
      if Contains(Upper(agent), Upper(m)) {
        ContainsNoLonger(Upper(agent), Upper(m));
        assert false;
      }
    }
  }
}
