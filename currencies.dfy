/**
 * The controller's fixed `supportedCurrencies` set (`Set.of` over 226 string
 * literals) and the facts about it that the validators rely on.
 *
 * The literal is kept as blocks of at most 14 codes, one block per line
 * of CurrencyController.java, in its order; line 29 is two blocks because the
 * alphabetical order of the literal restarts there ("ZWL" is followed by
 * "ADA"). The literal is thus two alphabetical runs, which is what the
 * proof that it has no duplicate uses.
 */
module Currencies {
  import opened JavaText

  /** The codes of CurrencyController.java line 25, in the order written there. */
  function FromSDD(): seq<string> { ["SDD", "SDG", "SEK", "SGD", "SHP", "SIT", "SKK", "SLE", "SLL", "SOL", "SOS", "SPL", "SRD", "SRG"] }
  /** The codes of CurrencyController.java line 26, in the order written there. */
  function FromSTD(): seq<string> { ["STD", "STN", "SVC", "SYP", "SZL", "THB", "TJS", "TMM", "TMT", "TND", "TOP", "TRL", "TRY", "TTD"] }
  /** The codes of CurrencyController.java line 27, in the order written there. */
  function FromTVD(): seq<string> { ["TVD", "TWD", "TZS", "UAH", "UGX", "UNI", "USD", "USDC", "USDP", "UYU", "UZS", "VAL", "VEB", "VED"] }
  /** The codes of CurrencyController.java line 28, in the order written there. */
  function FromVEF(): seq<string> { ["VEF", "VES", "VND", "VUV", "WST", "XAF", "XAG", "XAU", "XBT", "XCD", "XCG", "XDR", "XLM", "XOF"] }
  /** The codes that open CurrencyController.java line 29, in the order written there. */
  function FromXPD(): seq<string> { ["XPD", "XPF", "XPT", "XRP", "YER", "ZAR", "ZMK", "ZMW", "ZWD", "ZWG", "ZWL"] }
  /** The codes that close CurrencyController.java line 29, in the order written there. */
  function FromADA(): seq<string> { ["ADA", "AED", "AFN"] }
  /** The codes of CurrencyController.java line 30, in the order written there. */
  function FromALL(): seq<string> { ["ALL", "AMD", "ANG", "AOA", "ARS", "ATS", "AUD", "AWG", "AZM", "AZN", "BAM", "BBD", "BCH", "BDT"] }
  /** The codes of CurrencyController.java line 31, in the order written there. */
  function FromBEF(): seq<string> { ["BEF", "BGN", "BHD", "BIF", "BMD", "BND", "BOB", "BRL", "BSD", "BTC", "BTN", "BWP", "BYN", "BYR"] }
  /** The codes of CurrencyController.java line 32, in the order written there. */
  function FromBZD(): seq<string> { ["BZD", "CAD", "CDF", "CHF", "CLF", "CLP", "CNH", "CNY", "COP", "CRC", "CUC", "CUP", "CVE", "CYP"] }
  /** The codes of CurrencyController.java line 33, in the order written there. */
  function FromCZK(): seq<string> { ["CZK", "DEM", "DJF", "DKK", "DOGE", "DOP", "DOT", "DZD", "EEK", "EGP", "ERN", "ESP", "ETB", "ETH"] }
  /** The codes of CurrencyController.java line 34, in the order written there. */
  function FromEUR(): seq<string> { ["EUR", "EURC", "FIM", "FJD", "FKP", "FRF", "GBP", "GEL", "GGP", "GHC", "GHS", "GIP", "GMD", "GNF"] }
  /** The codes of CurrencyController.java line 35, in the order written there. */
  function FromGRD(): seq<string> { ["GRD", "GTQ", "GYD", "HKD", "HNL", "HRK", "HTG", "HUF", "IDR", "IEP", "ILS", "IMP", "INR", "IQD"] }
  /** The codes of CurrencyController.java line 36, in the order written there. */
  function FromIRR(): seq<string> { ["IRR", "ISK", "ITL", "JEP", "JMD", "JOD", "JPY", "KES", "KGS", "KHR", "KMF", "KPW", "KRW", "KWD"] }
  /** The codes of CurrencyController.java line 37, in the order written there. */
  function FromKYD(): seq<string> { ["KYD", "KZT", "LAK", "LBP", "LINK", "LKR", "LRD", "LSL", "LTC", "LTL", "LUF", "LUNA", "LVL", "LYD"] }
  /** The codes of CurrencyController.java line 38, in the order written there. */
  function FromMAD(): seq<string> { ["MAD", "MDL", "MGA", "MGF", "MKD", "MMK", "MNT", "MOP", "MRO", "MRU", "MTL", "MUR", "MVR", "MWK"] }
  /** The codes of CurrencyController.java line 39, in the order written there. */
  function FromMXN(): seq<string> { ["MXN", "MXV", "MYR", "MZM", "MZN", "NAD", "NGN", "NIO", "NLG", "NOK", "NPR", "NZD", "OMR", "PAB"] }
  /** The codes of CurrencyController.java line 40, in the order written there. */
  function FromPEN(): seq<string> { ["PEN", "PGK", "PHP", "PKR", "PLN", "PTE", "PYG", "QAR", "ROL", "RON", "RSD", "RUB", "RWF", "SAR"] }
  /** The codes of CurrencyController.java line 41, in the order written there. */
  function FromSBD(): seq<string> { ["SBD", "SCR"] }

  /** The literal's codes from "SDD" to "ZWL" (CurrencyController.java lines 25 to 29). */
  function RunFromSDD(): seq<string> { FromSDD() + FromSTD() + FromTVD() + FromVEF() + FromXPD() }

  /** The literal's codes from "ADA" to "SCR" (CurrencyController.java lines 29 to 41). */
  function RunFromADA(): seq<string> {
    FromADA() + FromALL() + FromBEF() + FromBZD() + FromCZK() + FromEUR() + FromGRD()
      + FromIRR() + FromKYD() + FromMAD() + FromMXN() + FromPEN() + FromSBD()
  }

  /** The arguments of `Set.of(...)`, in source order. */
  function SupportedCurrencyList(): seq<string> { RunFromSDD() + RunFromADA() }

  /** `supportedCurrencies`: the set of the listed codes. */
  function SupportedCurrencies(): set<string> { set c | c in SupportedCurrencyList() }

  /** The listed codes that are four letters long. */
  const FourLetterCodes: set<string> := {"USDC", "USDP", "DOGE", "EURC", "LINK", "LUNA"}

  /** A currency symbol of the literal's form: three or four letters `A`..`Z`. */
  predicate IsCode(c: string)
  {
    (|c| == 3 || |c| == 4) && forall i | 0 <= i < |c| :: IsAsciiUpper(c[i])
  }

  // ----------------- an alphabetical ordering key -----------------

  /** Position `i` of a code as a base-27 digit: 1 for `A` to 26 for `Z`, 0 past the end. */
  function Letter(c: string, i: nat): int
  {
    if i < |c| then c[i] as int - 'A' as int + 1 else 0
  }

  /** A number that orders codes alphabetically (a shorter code before its extensions). */
  function Key(c: string): int
  {
    ((Letter(c, 0) * 27 + Letter(c, 1)) * 27 + Letter(c, 2)) * 27 + Letter(c, 3)
  }

  /** Each code's key is below the next one's. */
  predicate StepsUp(s: seq<string>)
  {
    forall i | 0 <= i < |s| - 1 :: Key(s[i]) < Key(s[i + 1])
  }

  /** Keys strictly increase along the whole sequence. */
  predicate Ascending(s: seq<string>)
  {
    forall i, j | 0 <= i < j < |s| :: Key(s[i]) < Key(s[j])
  }

  /** Every element is a code, and the four-letter ones are among `FourLetterCodes`. */
  predicate AllCodes(s: seq<string>)
  {
    forall c | c in s :: IsCode(c) && (|c| == 4 ==> c in FourLetterCodes)
  }

  /** What each block, and each of the two runs, of the literal satisfies. */
  predicate GoodRun(s: seq<string>)
  {
    StepsUp(s) && AllCodes(s)
  }

  /** No code occurs at two positions. */
  predicate NoDuplicates(s: seq<string>)
  {
    forall i, j | 0 <= i < j < |s| :: s[i] != s[j]
  }

  // ----------------- facts about single blocks (checked on the literal) -----------------

  lemma FromSDDAscends() ensures StepsUp(FromSDD()) {}
  lemma FromSDDEnds() ensures FromSDD()[0] == "SDD" && Last(FromSDD()) == "SRG" {}
  lemma FromSDDCodes() ensures AllCodes(FromSDD()) {}
  lemma FromSTDAscends() ensures StepsUp(FromSTD()) {}
  lemma FromSTDEnds() ensures FromSTD()[0] == "STD" && Last(FromSTD()) == "TTD" {}
  lemma FromSTDCodes() ensures AllCodes(FromSTD()) {}
  lemma FromTVDAscends() ensures StepsUp(FromTVD()) {}
  lemma FromTVDEnds() ensures FromTVD()[0] == "TVD" && Last(FromTVD()) == "VED" {}
  lemma FromTVDCodes() ensures AllCodes(FromTVD()) {}
  lemma FromVEFAscends() ensures StepsUp(FromVEF()) {}
  lemma FromVEFEnds() ensures FromVEF()[0] == "VEF" && Last(FromVEF()) == "XOF" {}
  lemma FromVEFCodes() ensures AllCodes(FromVEF()) {}
  lemma FromXPDAscends() ensures StepsUp(FromXPD()) {}
  lemma FromXPDEnds() ensures FromXPD()[0] == "XPD" && Last(FromXPD()) == "ZWL" {}
  lemma FromXPDCodes() ensures AllCodes(FromXPD()) {}
  lemma FromADAAscends() ensures StepsUp(FromADA()) {}
  lemma FromADAEnds() ensures FromADA()[0] == "ADA" && Last(FromADA()) == "AFN" {}
  lemma FromADACodes() ensures AllCodes(FromADA()) {}
  lemma FromALLAscends() ensures StepsUp(FromALL()) {}
  lemma FromALLEnds() ensures FromALL()[0] == "ALL" && Last(FromALL()) == "BDT" {}
  lemma FromALLCodes() ensures AllCodes(FromALL()) {}
  lemma FromBEFAscends() ensures StepsUp(FromBEF()) {}
  lemma FromBEFEnds() ensures FromBEF()[0] == "BEF" && Last(FromBEF()) == "BYR" {}
  lemma FromBEFCodes() ensures AllCodes(FromBEF()) {}
  lemma FromBZDAscends() ensures StepsUp(FromBZD()) {}
  lemma FromBZDEnds() ensures FromBZD()[0] == "BZD" && Last(FromBZD()) == "CYP" {}
  lemma FromBZDCodes() ensures AllCodes(FromBZD()) {}
  lemma FromCZKAscends() ensures StepsUp(FromCZK()) {}
  lemma FromCZKEnds() ensures FromCZK()[0] == "CZK" && Last(FromCZK()) == "ETH" {}
  lemma FromCZKCodes() ensures AllCodes(FromCZK()) {}
  lemma FromEURAscends() ensures StepsUp(FromEUR()) {}
  lemma FromEUREnds() ensures FromEUR()[0] == "EUR" && Last(FromEUR()) == "GNF" {}
  lemma FromEURCodes() ensures AllCodes(FromEUR()) {}
  lemma FromGRDAscends() ensures StepsUp(FromGRD()) {}
  lemma FromGRDEnds() ensures FromGRD()[0] == "GRD" && Last(FromGRD()) == "IQD" {}
  lemma FromGRDCodes() ensures AllCodes(FromGRD()) {}
  lemma FromIRRAscends() ensures StepsUp(FromIRR()) {}
  lemma FromIRREnds() ensures FromIRR()[0] == "IRR" && Last(FromIRR()) == "KWD" {}
  lemma FromIRRCodes() ensures AllCodes(FromIRR()) {}
  lemma FromKYDAscends() ensures StepsUp(FromKYD()) {}
  lemma FromKYDEnds() ensures FromKYD()[0] == "KYD" && Last(FromKYD()) == "LYD" {}
  lemma FromKYDCodes() ensures AllCodes(FromKYD()) {}
  lemma FromMADAscends() ensures StepsUp(FromMAD()) {}
  lemma FromMADEnds() ensures FromMAD()[0] == "MAD" && Last(FromMAD()) == "MWK" {}
  lemma FromMADCodes() ensures AllCodes(FromMAD()) {}
  lemma FromMXNAscends() ensures StepsUp(FromMXN()) {}
  lemma FromMXNEnds() ensures FromMXN()[0] == "MXN" && Last(FromMXN()) == "PAB" {}
  lemma FromMXNCodes() ensures AllCodes(FromMXN()) {}
  lemma FromPENAscends() ensures StepsUp(FromPEN()) {}
  lemma FromPENEnds() ensures FromPEN()[0] == "PEN" && Last(FromPEN()) == "SAR" {}
  lemma FromPENCodes() ensures AllCodes(FromPEN()) {}
  lemma FromSBDAscends() ensures StepsUp(FromSBD()) {}
  lemma FromSBDEnds() ensures FromSBD()[0] == "SBD" && Last(FromSBD()) == "SCR" {}
  lemma FromSBDCodes() ensures AllCodes(FromSBD()) {}

  // ----------------- from blocks to the whole literal -----------------

  /** The last code of a non-empty block. */
  function Last(s: seq<string>): string
    requires s != []
  {
    s[|s| - 1]
  }

  /** Two good runs whose meeting point also steps up form one good run. */
  lemma GoodRunAppend(a: seq<string>, b: seq<string>)
    requires GoodRun(a) && GoodRun(b)
    requires a != [] && b != [] && Key(Last(a)) < Key(b[0])
    ensures GoodRun(a + b) && (a + b)[0] == a[0] && Last(a + b) == Last(b)
  {
    forall i | 0 <= i < |a + b| - 1
      ensures Key((a + b)[i]) < Key((a + b)[i + 1])
    {
      if i >= |a| {
        assert (a + b)[i] == b[i - |a|] && (a + b)[i + 1] == b[i + 1 - |a|];
      }
    }
  }

  // Each step below adds one block to a run and keeps it good: ascending codes only.

  lemma RunFromSDDThroughSTD()
    ensures GoodRun(FromSDD() + FromSTD()) && (FromSDD() + FromSTD())[0] == "SDD" && Last(FromSDD() + FromSTD()) == "TTD"
  {
    FromSDDAscends(); FromSDDCodes(); FromSDDEnds();
    FromSTDAscends(); FromSTDCodes(); FromSTDEnds();
    GoodRunAppend(FromSDD(), FromSTD());
  }

  lemma RunFromSDDThroughTVD()
    ensures GoodRun(FromSDD() + FromSTD() + FromTVD()) && (FromSDD() + FromSTD() + FromTVD())[0] == "SDD" && Last(FromSDD() + FromSTD() + FromTVD()) == "VED"
  {
    RunFromSDDThroughSTD();
    FromTVDAscends(); FromTVDCodes(); FromTVDEnds();
    GoodRunAppend(FromSDD() + FromSTD(), FromTVD());
  }

  lemma RunFromSDDThroughVEF()
    ensures GoodRun(FromSDD() + FromSTD() + FromTVD() + FromVEF()) && (FromSDD() + FromSTD() + FromTVD() + FromVEF())[0] == "SDD" && Last(FromSDD() + FromSTD() + FromTVD() + FromVEF()) == "XOF"
  {
    RunFromSDDThroughTVD();
    FromVEFAscends(); FromVEFCodes(); FromVEFEnds();
    GoodRunAppend(FromSDD() + FromSTD() + FromTVD(), FromVEF());
  }

  lemma RunFromSDDIsGood()
    ensures GoodRun(RunFromSDD()) && (RunFromSDD())[0] == "SDD" && Last(RunFromSDD()) == "ZWL"
  {
    RunFromSDDThroughVEF();
    FromXPDAscends(); FromXPDCodes(); FromXPDEnds();
    GoodRunAppend(FromSDD() + FromSTD() + FromTVD() + FromVEF(), FromXPD());
  }

  lemma RunFromADAThroughALL()
    ensures GoodRun(FromADA() + FromALL()) && (FromADA() + FromALL())[0] == "ADA" && Last(FromADA() + FromALL()) == "BDT"
  {
    FromADAAscends(); FromADACodes(); FromADAEnds();
    FromALLAscends(); FromALLCodes(); FromALLEnds();
    GoodRunAppend(FromADA(), FromALL());
  }

  lemma RunFromADAThroughBEF()
    ensures GoodRun(FromADA() + FromALL() + FromBEF()) && (FromADA() + FromALL() + FromBEF())[0] == "ADA" && Last(FromADA() + FromALL() + FromBEF()) == "BYR"
  {
    RunFromADAThroughALL();
    FromBEFAscends(); FromBEFCodes(); FromBEFEnds();
    GoodRunAppend(FromADA() + FromALL(), FromBEF());
  }

  lemma RunFromADAThroughBZD()
    ensures GoodRun(FromADA() + FromALL() + FromBEF() + FromBZD()) && (FromADA() + FromALL() + FromBEF() + FromBZD())[0] == "ADA" && Last(FromADA() + FromALL() + FromBEF() + FromBZD()) == "CYP"
  {
    RunFromADAThroughBEF();
    FromBZDAscends(); FromBZDCodes(); FromBZDEnds();
    GoodRunAppend(FromADA() + FromALL() + FromBEF(), FromBZD());
  }

  lemma RunFromADAThroughCZK()
    ensures GoodRun(FromADA() + FromALL() + FromBEF() + FromBZD() + FromCZK()) && (FromADA() + FromALL() + FromBEF() + FromBZD() + FromCZK())[0] == "ADA" && Last(FromADA() + FromALL() + FromBEF() + FromBZD() + FromCZK()) == "ETH"
  {
    RunFromADAThroughBZD();
    FromCZKAscends(); FromCZKCodes(); FromCZKEnds();
    GoodRunAppend(FromADA() + FromALL() + FromBEF() + FromBZD(), FromCZK());
  }

  lemma RunFromADAThroughEUR()
    ensures GoodRun(FromADA() + FromALL() + FromBEF() + FromBZD() + FromCZK() + FromEUR()) && (FromADA() + FromALL() + FromBEF() + FromBZD() + FromCZK() + FromEUR())[0] == "ADA" && Last(FromADA() + FromALL() + FromBEF() + FromBZD() + FromCZK() + FromEUR()) == "GNF"
  {
    RunFromADAThroughCZK();
    FromEURAscends(); FromEURCodes(); FromEUREnds();
    GoodRunAppend(FromADA() + FromALL() + FromBEF() + FromBZD() + FromCZK(), FromEUR());
  }

  lemma RunFromADAThroughGRD()
    ensures GoodRun(FromADA() + FromALL() + FromBEF() + FromBZD() + FromCZK() + FromEUR() + FromGRD()) && (FromADA() + FromALL() + FromBEF() + FromBZD() + FromCZK() + FromEUR() + FromGRD())[0] == "ADA" && Last(FromADA() + FromALL() + FromBEF() + FromBZD() + FromCZK() + FromEUR() + FromGRD()) == "IQD"
  {
    RunFromADAThroughEUR();
    FromGRDAscends(); FromGRDCodes(); FromGRDEnds();
    GoodRunAppend(FromADA() + FromALL() + FromBEF() + FromBZD() + FromCZK() + FromEUR(), FromGRD());
  }

  lemma RunFromADAThroughIRR()
    ensures GoodRun(FromADA() + FromALL() + FromBEF() + FromBZD() + FromCZK() + FromEUR() + FromGRD() + FromIRR()) && (FromADA() + FromALL() + FromBEF() + FromBZD() + FromCZK() + FromEUR() + FromGRD() + FromIRR())[0] == "ADA" && Last(FromADA() + FromALL() + FromBEF() + FromBZD() + FromCZK() + FromEUR() + FromGRD() + FromIRR()) == "KWD"
  {
    RunFromADAThroughGRD();
    FromIRRAscends(); FromIRRCodes(); FromIRREnds();
    GoodRunAppend(FromADA() + FromALL() + FromBEF() + FromBZD() + FromCZK() + FromEUR() + FromGRD(), FromIRR());
  }

  lemma RunFromADAThroughKYD()
    ensures GoodRun(FromADA() + FromALL() + FromBEF() + FromBZD() + FromCZK() + FromEUR() + FromGRD() + FromIRR() + FromKYD()) && (FromADA() + FromALL() + FromBEF() + FromBZD() + FromCZK() + FromEUR() + FromGRD() + FromIRR() + FromKYD())[0] == "ADA" && Last(FromADA() + FromALL() + FromBEF() + FromBZD() + FromCZK() + FromEUR() + FromGRD() + FromIRR() + FromKYD()) == "LYD"
  {
    RunFromADAThroughIRR();
    FromKYDAscends(); FromKYDCodes(); FromKYDEnds();
    GoodRunAppend(FromADA() + FromALL() + FromBEF() + FromBZD() + FromCZK() + FromEUR() + FromGRD() + FromIRR(), FromKYD());
  }

  lemma RunFromADAThroughMAD()
    ensures GoodRun(FromADA() + FromALL() + FromBEF() + FromBZD() + FromCZK() + FromEUR() + FromGRD() + FromIRR() + FromKYD() + FromMAD()) && (FromADA() + FromALL() + FromBEF() + FromBZD() + FromCZK() + FromEUR() + FromGRD() + FromIRR() + FromKYD() + FromMAD())[0] == "ADA" && Last(FromADA() + FromALL() + FromBEF() + FromBZD() + FromCZK() + FromEUR() + FromGRD() + FromIRR() + FromKYD() + FromMAD()) == "MWK"
  {
    RunFromADAThroughKYD();
    FromMADAscends(); FromMADCodes(); FromMADEnds();
    GoodRunAppend(FromADA() + FromALL() + FromBEF() + FromBZD() + FromCZK() + FromEUR() + FromGRD() + FromIRR() + FromKYD(), FromMAD());
  }

  lemma RunFromADAThroughMXN()
    ensures GoodRun(FromADA() + FromALL() + FromBEF() + FromBZD() + FromCZK() + FromEUR() + FromGRD() + FromIRR() + FromKYD() + FromMAD() + FromMXN()) && (FromADA() + FromALL() + FromBEF() + FromBZD() + FromCZK() + FromEUR() + FromGRD() + FromIRR() + FromKYD() + FromMAD() + FromMXN())[0] == "ADA" && Last(FromADA() + FromALL() + FromBEF() + FromBZD() + FromCZK() + FromEUR() + FromGRD() + FromIRR() + FromKYD() + FromMAD() + FromMXN()) == "PAB"
  {
    RunFromADAThroughMAD();
    FromMXNAscends(); FromMXNCodes(); FromMXNEnds();
    GoodRunAppend(FromADA() + FromALL() + FromBEF() + FromBZD() + FromCZK() + FromEUR() + FromGRD() + FromIRR() + FromKYD() + FromMAD(), FromMXN());
  }

  lemma RunFromADAThroughPEN()
    ensures GoodRun(FromADA() + FromALL() + FromBEF() + FromBZD() + FromCZK() + FromEUR() + FromGRD() + FromIRR() + FromKYD() + FromMAD() + FromMXN() + FromPEN()) && (FromADA() + FromALL() + FromBEF() + FromBZD() + FromCZK() + FromEUR() + FromGRD() + FromIRR() + FromKYD() + FromMAD() + FromMXN() + FromPEN())[0] == "ADA" && Last(FromADA() + FromALL() + FromBEF() + FromBZD() + FromCZK() + FromEUR() + FromGRD() + FromIRR() + FromKYD() + FromMAD() + FromMXN() + FromPEN()) == "SAR"
  {
    RunFromADAThroughMXN();
    FromPENAscends(); FromPENCodes(); FromPENEnds();
    GoodRunAppend(FromADA() + FromALL() + FromBEF() + FromBZD() + FromCZK() + FromEUR() + FromGRD() + FromIRR() + FromKYD() + FromMAD() + FromMXN(), FromPEN());
  }

  lemma RunFromADAIsGood()
    ensures GoodRun(RunFromADA()) && (RunFromADA())[0] == "ADA" && Last(RunFromADA()) == "SCR"
  {
    RunFromADAThroughPEN();
    FromSBDAscends(); FromSBDCodes(); FromSBDEnds();
    GoodRunAppend(FromADA() + FromALL() + FromBEF() + FromBZD() + FromCZK() + FromEUR() + FromGRD() + FromIRR() + FromKYD() + FromMAD() + FromMXN() + FromPEN(), FromSBD());
  }

  /** Keys that step up between neighbours increase along the whole sequence. */
  lemma {:induction false} StepsUpIsAscending(s: seq<string>)
    requires StepsUp(s)
    ensures Ascending(s)
  {
    if |s| > 1 {
      var t := s[1..];
      assert StepsUp(t) by {
        forall i | 0 <= i < |t| - 1 ensures Key(t[i]) < Key(t[i + 1]) {
          assert t[i] == s[i + 1] && t[i + 1] == s[i + 2];
        }
      }
      StepsUpIsAscending(t);
      forall i, j | 0 <= i < j < |s|
        ensures Key(s[i]) < Key(s[j])
      {
        assert s[j] == t[j - 1];
        if i > 0 {
          assert s[i] == t[i - 1];
        } else if j > 1 {
          assert Key(s[0]) < Key(t[0]) < Key(t[j - 1]);
        }
      }
    }
  }

  /** Every code of an ascending run lies between its first and its last code. */
  lemma AscendingBounds(s: seq<string>, i: nat)
    requires Ascending(s) && i < |s|
    ensures Key(s[0]) <= Key(s[i]) <= Key(s[|s| - 1])
  {
  }

  /** Two good runs, the second entirely below the first, have no code in common. */
  lemma {:induction false} DescendingRunsNoDuplicates(lo: seq<string>, hi: seq<string>)
    requires Ascending(lo) && Ascending(hi)
    requires lo != [] && hi != [] && Key(Last(hi)) < Key(lo[0])
    ensures NoDuplicates(lo + hi)
  {
    var all := lo + hi;
    forall i, j | 0 <= i < j < |all|
      ensures all[i] != all[j]
    {
      if j < |lo| {
        assert Key(lo[i]) < Key(lo[j]);
      } else if i >= |lo| {
        assert Key(hi[i - |lo|]) < Key(hi[j - |lo|]);
      } else {
        AscendingBounds(lo, i);
        AscendingBounds(hi, j - |lo|);
        assert Key(hi[j - |lo|]) < Key(lo[i]);
      }
    }
  }

  /** A code whose key is above the last of an ascending run is not in it. */
  lemma NotAbove(s: seq<string>, x: string)
    requires Ascending(s) && s != [] && Key(Last(s)) < Key(x)
    ensures x !in s
  {
    forall i | 0 <= i < |s| ensures s[i] != x {
      AscendingBounds(s, i);
    }
  }

  /** A sequence without duplicates has as many distinct elements as positions. */
  lemma {:induction false} NoDuplicatesCount(s: seq<string>)
    requires NoDuplicates(s)
    ensures |set c | c in s| == |s|
  {
    if s != [] {
      var t, x := s[..|s| - 1], s[|s| - 1];
      assert NoDuplicates(t);
      NoDuplicatesCount(t);
      assert s == t + [x];
      assert (set c | c in s) == (set c | c in t) + {x};
      assert x !in (set c | c in t);
    }
  }

  // ----------------- the facts the validators rely on -----------------

  /** The literal holds no code twice, so `Set.of` accepts it. */
  lemma SupportedCurrencyListHasNoDuplicates()
    ensures NoDuplicates(SupportedCurrencyList())
  {
    RunFromSDDIsGood();
    RunFromADAIsGood();
    StepsUpIsAscending(RunFromSDD());
    StepsUpIsAscending(RunFromADA());
    DescendingRunsNoDuplicates(RunFromSDD(), RunFromADA());
  }

  /** `supportedCurrencies` holds 226 distinct codes. */
  lemma SupportedCurrencyCount()
    ensures |SupportedCurrencyList()| == 226
    ensures |SupportedCurrencies()| == 226
  {
    SupportedCurrencyListHasNoDuplicates();
    NoDuplicatesCount(SupportedCurrencyList());
  }

  /** The codes of two runs of codes are codes. */
  lemma AllCodesAppend(a: seq<string>, b: seq<string>)
    requires AllCodes(a) && AllCodes(b)
    ensures AllCodes(a + b)
  {
  }

  /** The six four-letter codes all occur in the literal. */
  lemma FourLetterCodesAreListed()
    ensures FourLetterCodes <= SupportedCurrencies()
  {
    assert "USDC" in FromTVD() && "USDP" in FromTVD();
    assert "DOGE" in FromCZK() && "EURC" in FromEUR();
    assert "LINK" in FromKYD() && "LUNA" in FromKYD();
  }

  /** The codes the controller's examples use are listed. */
  lemma ExampleCodesAreListed()
    ensures "USD" in SupportedCurrencies() && "EUR" in SupportedCurrencies() && "GBP" in SupportedCurrencies()
  {
    assert "USD" in FromTVD();
    assert "EUR" in FromEUR() && "GBP" in FromEUR();
  }

  /** Every listed element is a code, four letters long only when it is one of `FourLetterCodes`. */
  lemma SupportedCurrencyListHasCodes()
    ensures AllCodes(SupportedCurrencyList())
  {
    RunFromSDDIsGood();
    RunFromADAIsGood();
    AllCodesAppend(RunFromSDD(), RunFromADA());
  }

  /** A code is its own upper-cased form. */
  lemma CodeIsUpperCase(c: string)
    requires IsCode(c)
    ensures ToUpperCase(c) == c
  {
  }

  /**
   * Every supported code is three or four upper-case letters, so it is its own
   * upper-cased form; the four-letter ones are exactly `FourLetterCodes`.
   */
  lemma SupportedCurrenciesAreCodes()
    ensures forall c | c in SupportedCurrencies() :: IsCode(c) && ToUpperCase(c) == c
    ensures forall c | c in SupportedCurrencies() :: |c| == 4 <==> c in FourLetterCodes
    ensures FourLetterCodes <= SupportedCurrencies()
  {
    SupportedCodesAreCodes();
    FourLetterCodesAreListed();
    FourLetterCodesAreFourLong();
  }

  /** Every supported code is a code, and its own upper-cased form. */
  lemma SupportedCodesAreCodes()
    ensures forall c | c in SupportedCurrencies() :: IsCode(c) && (|c| == 4 ==> c in FourLetterCodes) && ToUpperCase(c) == c
  {
    SupportedCurrencyListHasCodes();
    forall c | c in SupportedCurrencies() ensures ToUpperCase(c) == c {
      CodeIsUpperCase(c);
    }
  }

  /** The six four-letter codes are four characters long. */
  lemma FourLetterCodesAreFourLong()
    ensures forall c | c in FourLetterCodes :: |c| == 4
  {
  }

  /** What the controller relies on about its table of symbols: every entry is a code. */
  predicate IsSymbolTable(t: set<string>)
  {
    forall c | c in t :: IsCode(c)
  }

  /** The four-letter entries of a table are exactly `FourLetterCodes`. */
  predicate HasFourLetterCodes(t: set<string>)
  {
    (forall c | c in t && |c| == 4 :: c in FourLetterCodes) && FourLetterCodes <= t
  }

  /** The literal is such a table, with the six four-letter codes. */
  lemma SupportedCurrenciesIsSymbolTable()
    ensures IsSymbolTable(SupportedCurrencies()) && HasFourLetterCodes(SupportedCurrencies())
  {
    SupportedCurrencyListHasCodes();
    FourLetterCodesAreListed();
  }

  /** "XXX" is not in the block from "XPD" (it would sit between "XRP" and "YER"). */
  lemma XXXIsNotInFromXPD()
    ensures "XXX" !in FromXPD()
  {
  }

  /** No code of the run from "SDD" is "XXX": it is above every code before "XPD" and absent from the last block. */
  lemma XXXIsNotInRunFromSDD()
    ensures "XXX" !in RunFromSDD()
  {
    var a := FromSDD() + FromSTD() + FromTVD() + FromVEF();
    RunFromSDDThroughVEF();
    StepsUpIsAscending(a);
    NotAbove(a, "XXX");
    XXXIsNotInFromXPD();
    assert RunFromSDD() == a + FromXPD();
  }

  /** No code of the run from "ADA" is "XXX": they all come before "SCR". */
  lemma XXXIsNotInRunFromADA()
    ensures "XXX" !in RunFromADA()
  {
    RunFromADAIsGood();
    StepsUpIsAscending(RunFromADA());
    NotAbove(RunFromADA(), "XXX");
  }

  /** "XXX", the example of an unknown code, is not supported. */
  lemma XXXIsNotSupported()
    ensures "XXX" !in SupportedCurrencies()
  {
    XXXIsNotInRunFromSDD();
    XXXIsNotInRunFromADA();
  }
}
