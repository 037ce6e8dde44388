/**
 * The attestation stage: hash a canonical summary of the test result and
 * ask the enclave for a quote over the hash, falling back to an unquoted
 * record when no quote can be had. The stage never fails.
 */
module Attestation {
  import opened Wrappers
  import opened Json
  import opened Runner

  newtype byte = x: int | 0 <= x < 256

  /** The four fields the hash covers, in the order they are serialised. */
  datatype Summary = Summary(skillId: string, passed: bool, exitCode: int, duration: int)

  function SummaryOf(skillId: string, t: TestResult): Summary
  {
    Summary(skillId, t.passed, t.exitCode, t.duration)
  }

  function BoolString(b: bool): string
  {
    if b then "true" else "false"
  }

  /** `JSON.stringify` of the summary object. */
  function SummaryJson(s: Summary): string
  {
    "{\"skillId\":" + (Quote(s.skillId) + (",\"passed\":" + OutcomeJson(s)))
  }

  /** The text after the `passed` key. */
  function OutcomeJson(s: Summary): string
  {
    BoolString(s.passed)
    + (",\"exitCode\":" + (IntString(s.exitCode)
    + (",\"duration\":" + (IntString(s.duration) + "}"))))
  }

  /** What follows `lit` in `t`, if `t` starts with it. */
  function Expect(t: string, lit: string): Option<string>
  {
    if lit <= t then Some(t[|lit|..]) else None
  }

  function ReadBool(t: string): Option<(bool, string)>
  {
    if "true" <= t then Some((true, t[4..]))
    else if "false" <= t then Some((false, t[5..]))
    else None
  }

  /** Reads back a summary written in the canonical layout. */
  function ReadSummary(t: string): Option<Summary>
  {
    var a :- Expect(t, "{\"skillId\":");
    var id :- ReadQuoted(a);
    var b :- Expect(id.1, ",\"passed\":");
    ReadOutcome(id.0, b)
  }

  /** The rest of a summary, after its `passed` key. */
  function ReadOutcome(skillId: string, t: string): Option<Summary>
  {
    var passed :- ReadBool(t);
    var c :- Expect(passed.1, ",\"exitCode\":");
    var exitCode :- ReadInt(c);
    var d :- Expect(exitCode.1, ",\"duration\":");
    var duration :- ReadInt(d);
    if duration.1 == "}" then Some(Summary(skillId, passed.0, exitCode.0, duration.0)) else None
  }

  lemma ExpectLiteral(lit: string, rest: string)
    ensures Expect(lit + rest, lit) == Some(rest)
  {
    assert lit <= lit + rest;
    assert (lit + rest)[|lit|..] == rest;
  }

  lemma ReadBoolString(b: bool, rest: string)
    ensures ReadBool(BoolString(b) + rest) == Some((b, rest))
  {
    if b {
      ExpectLiteral("true", rest);
    } else {
      ExpectLiteral("false", rest);
      assert !("true" <= "false" + rest) by {
        assert ("false" + rest)[0] == 'f';
      }
    }
  }

  lemma OutcomeRoundTrip(s: Summary)
    ensures ReadOutcome(s.skillId, OutcomeJson(s)) == Some(s)
  {
    var t4 := ",\"duration\":" + (IntString(s.duration) + "}");
    var t3 := ",\"exitCode\":" + (IntString(s.exitCode) + t4);
    ReadBoolString(s.passed, t3);
    ExpectLiteral(",\"exitCode\":", IntString(s.exitCode) + t4);
    ReadIntString(s.exitCode, t4);
    ExpectLiteral(",\"duration\":", IntString(s.duration) + "}");
    ReadIntString(s.duration, "}");
  }

  /** The serialised summary reads back as the same four fields. */
  lemma SummaryRoundTrip(s: Summary)
    ensures ReadSummary(SummaryJson(s)) == Some(s)
  {
    var t2 := ",\"passed\":" + OutcomeJson(s);
    ExpectLiteral("{\"skillId\":", Quote(s.skillId) + t2);
    ReadQuotedString(s.skillId, t2);
    ExpectLiteral(",\"passed\":", OutcomeJson(s));
    OutcomeRoundTrip(s);
  }

  /** Distinct summaries serialise differently. */
  lemma SummaryJsonInjective(s: Summary, s': Summary)
    ensures SummaryJson(s) == SummaryJson(s') ==> s == s'
  {
    SummaryRoundTrip(s);
    SummaryRoundTrip(s');
  }

  /** `Buffer.toString('hex')`: two lower-case digits per byte. */
  function Hex(bytes: seq<byte>): (h: string)
    ensures |h| == 2 * |bytes|
  {
    if bytes == [] then ""
    else [HexDigit(bytes[0] as nat / 16), HexDigit(bytes[0] as nat % 16)] + Hex(bytes[1..])
  }

  function ReadHex(t: string): Option<seq<byte>>
    decreases |t|
  {
    if t == [] then Some([])
    else if |t| < 2 then None
    else
      var hi :- HexValue(t[0]);
      var lo :- HexValue(t[1]);
      var rest :- ReadHex(t[2..]);
      if hi < 16 && lo < 16 then Some([(hi * 16 + lo) as byte] + rest) else None
  }

  /** The hex text determines the bytes it was made from. */
  lemma {:induction false} HexRoundTrip(bytes: seq<byte>)
    ensures ReadHex(Hex(bytes)) == Some(bytes)
    decreases |bytes|
  {
    if bytes != [] {
      var b := bytes[0] as nat;
      HexDigitValue(b / 16);
      HexDigitValue(b % 16);
      var h := Hex(bytes);
      assert h[2..] == Hex(bytes[1..]);
      HexRoundTrip(bytes[1..]);
      assert bytes == [bytes[0]] + bytes[1..];
    }
  }

  /** What asking the enclave for a quote did. */
  datatype QuoteOutcome = Quoted(quote: string) | QuoteFailed(message: string)

  datatype Attestation = Attestation(quote: Option<string>, resultHash: string, verifier: string, note: string)

  const SimulatorNote := "Simulated attestation - replace with real TEE in production"

  /**
   * The attestation for a test result. `sha256` stands for SHA-256 over
   * the UTF-8 encoding of its argument; `getQuote` for the enclave call.
   */
  function GenerateAttestation(skillId: string, t: TestResult,
                               sha256: string -> seq<byte>, getQuote: seq<byte> -> QuoteOutcome): Attestation
  {
    var digest := sha256(SummaryJson(SummaryOf(skillId, t)));
    match getQuote(digest)
    case Quoted(q) => Attestation(Some(q), Hex(digest), "dstack-simulator", SimulatorNote)
    case QuoteFailed(message) => Attestation(None, Hex(digest), "none", "No TEE available: " + message)
  }

  /**
   * The recorded hash decodes to the digest of the serialised summary,
   * and the quote request is made over that same digest.
   */
  lemma AttestationBindsSummary(skillId: string, t: TestResult,
                                sha256: string -> seq<byte>, getQuote: seq<byte> -> QuoteOutcome)
    ensures var digest := sha256(SummaryJson(SummaryOf(skillId, t)));
      var a := GenerateAttestation(skillId, t, sha256, getQuote);
      ReadHex(a.resultHash) == Some(digest)
      && (a.quote.Some? <==> getQuote(digest).Quoted?)
      && (a.quote.Some? ==> a.quote.value == getQuote(digest).quote)
  {
    HexRoundTrip(sha256(SummaryJson(SummaryOf(skillId, t))));
  }

  /**
   * Results that agree on passed, exit code and duration get the same
   * recorded hash, whatever their output and whatever the quote service
   * answers; for the same answer of the quote service they get the same
   * attestation.
   */
  lemma AttestationIgnoresOutput(skillId: string, t: TestResult, t': TestResult, sha256: string -> seq<byte>,
                                 getQuote: seq<byte> -> QuoteOutcome, getQuote': seq<byte> -> QuoteOutcome)
    requires t.passed == t'.passed && t.exitCode == t'.exitCode && t.duration == t'.duration
    ensures GenerateAttestation(skillId, t, sha256, getQuote).resultHash
         == GenerateAttestation(skillId, t', sha256, getQuote').resultHash
    ensures GenerateAttestation(skillId, t, sha256, getQuote) == GenerateAttestation(skillId, t', sha256, getQuote)
  {
    assert SummaryOf(skillId, t) == SummaryOf(skillId, t');
  }

  /** A failed quote request still yields a record: unquoted, marked as such, with the reason. */
  lemma QuoteFallback(skillId: string, t: TestResult,
                      sha256: string -> seq<byte>, getQuote: seq<byte> -> QuoteOutcome)
    requires getQuote(sha256(SummaryJson(SummaryOf(skillId, t)))).QuoteFailed?
    ensures var a := GenerateAttestation(skillId, t, sha256, getQuote);
      var message := getQuote(sha256(SummaryJson(SummaryOf(skillId, t)))).message;
      a.quote == None && a.verifier == "none" && a.note == "No TEE available: " + message
  {
  }

  /** A quote request that succeeds yields the simulator's record carrying that quote. */
  lemma QuoteObtained(skillId: string, t: TestResult,
                      sha256: string -> seq<byte>, getQuote: seq<byte> -> QuoteOutcome)
    requires getQuote(sha256(SummaryJson(SummaryOf(skillId, t)))).Quoted?
    ensures var a := GenerateAttestation(skillId, t, sha256, getQuote);
      a.quote == Some(getQuote(sha256(SummaryJson(SummaryOf(skillId, t)))).quote)
      && a.verifier == "dstack-simulator" && a.note == SimulatorNote
  {
  }
}
