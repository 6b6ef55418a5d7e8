/** The configuration page's display rule for secrets read from the `.env` file. */
module ConfigPage {
  import opened Strings

  /** `_mask_secret`: keep at most the first six and last four characters of a secret. */
  function MaskSecret(value: string): (r: string)
    ensures value == "" <==> r == ""
    ensures 0 < |value| <= 12 ==> r == "***"
    ensures |value| > 12 ==>
      (|r| == |value| && r[..6] == value[..6] && r[|r| - 4..] == value[|value| - 4..]
       && forall i | 6 <= i < |value| - 4 :: r[i] == '*')
  {
    if value == "" then ""
    else if |value| <= 12 then "***"
    else value[..6] + Repeat('*', |value| - 10) + value[|value| - 4..]
  }

  /** A masked secret shows no character of the secret beyond the first six and last four. */
  lemma MaskHides(value: string, i: nat)
    requires i < |MaskSecret(value)|
    ensures var r := MaskSecret(value);
      r[i] == '*' || (|value| > 12 && r[i] == value[i] && (i < 6 || i >= |value| - 4))
  {
  }

  /** Masking a masked secret changes nothing. */
  lemma MaskIdempotent(value: string)
    ensures MaskSecret(MaskSecret(value)) == MaskSecret(value)
  {
    var r := MaskSecret(value);
    if |value| > 12 {
      var rr := MaskSecret(r);
      assert |rr| == |r|;
      forall i | 0 <= i < |r| ensures rr[i] == r[i] {
        if i < 6 {
          assert rr[..6][i] == r[..6][i];
        } else if i >= |r| - 4 {
          assert rr[|rr| - 4..][i - (|r| - 4)] == r[|r| - 4..][i - (|r| - 4)];
        }
      }
    }
  }

  /** The four keys `show` masks. */
  const SecretKeys: set<string> := {"DEEPSEEK_API_KEY", "TUSHARE_TOKEN", "EMAIL_PASSWORD", "WEBHOOK_URL"}

  /** `show(k)` inside the page: the value of `k` ("" when missing), masked only for the four secret keys when not revealed. */
  function Show(current: map<string, string>, k: string, revealed: bool): string
  {
    var v := if k in current then current[k] else "";
    if revealed then v
    else if k in SecretKeys then MaskSecret(v)
    else v
  }

  /** A revealed value, a non-secret key and a missing key all show as stored; a secret longer than 12 characters keeps its length. */
  lemma ShowCases(current: map<string, string>, k: string, revealed: bool)
    ensures k !in current ==> Show(current, k, revealed) == ""
    ensures (revealed || k !in SecretKeys) && k in current ==> Show(current, k, revealed) == current[k]
    ensures k in current && |current[k]| > 12 ==> |Show(current, k, revealed)| == |current[k]|
    ensures !revealed && k in SecretKeys && k in current && 0 < |current[k]| <= 12 ==> Show(current, k, revealed) == "***"
  {
  }
}
