/** From the status string NUT announces to the PresentStatus bits of report 2. */
module StatusReport {
  import opened StatusTokens
  import opened UpsStatus
  import opened Reports
  import opened HidBits
  import opened HidMeaning

  /** The twelve declared bits and the four of padding, from the tokens of the announced status and the
      charge and runtime thresholds. */
  function BitsFromTokens(ts: set<string>, s: Status): seq<nat> {
    [1, 0, Bit("OVER" in ts, 1), 0,
     Bit("FSD" in ts, 1), Bit("LB" in ts || s.batteryCharge <= s.batteryChargeLow, 1),
     Bit("FSD" in ts || s.runtime <= s.runtimeLow, 1), Bit("CHRG" in ts, 1),
     Bit(("OB" in ts && "OL" !in ts) || "DISCHRG" in ts, 1), 0, Bit("OL" in ts, 1), 1, 0, 0, 0, 0]
  }

  /** After a poll that announced `nutStatus`, each of the last sixteen bits of report 2 is decided by
      those tokens and thresholds alone. */
  lemma StatusBitsFollowTokens(s: Status, nutStatus: string, k: nat)
    requires s.power == ParseStatus(nutStatus) && k < 16
    ensures |FullReport(s, 2)| == 23
    ensures BitAt(FullReport(s, 2), 168 + k) == BitsFromTokens(Tokens(nutStatus), s)[k]
  {
    ParseStatusIsFlagsOf(nutStatus);
    StatusBitsAt(s);
    BothBytes(s, Tokens(nutStatus));
  }

  lemma BothBytes(s: Status, ts: set<string>)
    requires s.power == FlagsOf(ts)
    ensures LowBits(s) + HighBits(s) == BitsFromTokens(ts, s) && |LowBits(s)| == 8
  {
  }
}
