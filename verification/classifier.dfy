/**
 * Agent classification: a User-Agent is an unfurl bot when one of a fixed
 * list of lower-case signatures occurs in it.
 */
module Classifier {
  import opened Wrappers
  import opened Text

  /** The signature list of `looksLikeUnfurlBot`, in source order. */
  const Signatures: seq<string> := [
    "whatsapp", "facebookexternalhit", "twitterbot", "slackbot", "linkedinbot",
    "discordbot", "telegrambot", "skypeuripreview", "vkshare", "pinterest",
    "applebot", "embedly", "iframely", "quora link preview",
    "googlebot", "bingbot", "duckduckbot", "yandexbot", "ia_archiver"
  ]

  /** Some signature of `sigs` occurs in `ua`. */
  ghost predicate MatchesSome(ua: string, sigs: seq<string>) {
    exists k :: 0 <= k < |sigs| && IsSubstring(sigs[k], ua)
  }

  /** `sigs.some(s => ua.includes(s))`, tried in list order. */
  function AnySignature(ua: string, sigs: seq<string>): (b: bool)
    ensures b <==> MatchesSome(ua, sigs)
  {
    if |sigs| == 0 then false
    else if Contains(ua, sigs[0]) then true
    else
      var b := AnySignature(ua, sigs[1..]);
      assert b <==> MatchesSome(ua, sigs) by {
        assert forall k :: 0 <= k < |sigs| - 1 ==> sigs[1..][k] == sigs[k + 1];
      }
      b
  }

  /** `looksLikeUnfurlBot`: the (already lower-cased) UA holds a listed signature. */
  function LooksLikeUnfurlBot(ua: string): (b: bool)
    ensures b <==> exists k :: 0 <= k < |Signatures| && IsSubstring(Signatures[k], ua)
  {
    AnySignature(ua, Signatures)
  }

  /** The caller's view: a missing User-Agent header counts as "", and the value is lower-cased first. */
  function IsPreviewBot(userAgent: Option<string>): bool {
    LooksLikeUnfurlBot(Lower(userAgent.GetOr("")))
  }

  /** The empty User-Agent holds none of the signature letters, so it is human. */
  lemma EmptyAgentIsHuman()
    ensures !LooksLikeUnfurlBot("")
    ensures !IsPreviewBot(None) && !IsPreviewBot(Some(""))
  {
    assert Lower("") == "";
    AgentWithoutSignatureLettersIsHuman("");
  }

  /** Monotone: a string that contains a bot User-Agent is itself a bot User-Agent. */
  lemma BotMonotone(ua: string, wider: string)
    requires LooksLikeUnfurlBot(ua) && IsSubstring(ua, wider)
    ensures LooksLikeUnfurlBot(wider)
  {
    var k :| 0 <= k < |Signatures| && IsSubstring(Signatures[k], ua);
    SubstringTransitive(Signatures[k], ua, wider);
  }

  /** In particular, extending a bot User-Agent on either side keeps it a bot. */
  lemma BotExtended(ua: string, before: string, after: string)
    requires LooksLikeUnfurlBot(ua)
    ensures LooksLikeUnfurlBot(before + ua + after)
  {
    var w := before + ua + after;
    assert w[|before|..|before| + |ua|] == ua;
    assert OccursAt(ua, w, |before|);
    BotMonotone(ua, w);
  }

  /**
   * Case-insensitive detection: a header in which some signature occurs in
   * any mix of ASCII upper and lower case is classified as a bot.
   */
  lemma PreviewBotIgnoresCase(header: string, k: int, i: int)
    requires 0 <= k < |Signatures|
    requires 0 <= i && i + |Signatures[k]| <= |header|
    requires Lower(header[i..i + |Signatures[k]|]) == Signatures[k]
    ensures IsPreviewBot(Some(header))
  {
    var lowered := Lower(header);
    LowerSlice(header, i, i + |Signatures[k]|);
    assert OccursAt(Signatures[k], lowered, i);
  }

  /** The Facebook crawler's User-Agent is a bot. */
  lemma FacebookCrawlerIsBot()
    ensures IsPreviewBot(Some("facebookexternalhit/1.1"))
  {
    var ua := "facebookexternalhit/1.1";
    assert Lower(ua) == ua;
    assert OccursAt(Signatures[1], ua, 0);
  }

  /** Every signature holds one of these characters. */
  const SignatureLetters := "wfkdgvpeqby_"

  // Each signature holds a character from SignatureLetters, shown in chunks of five.

  lemma LacksSignaturesA(ua: string)
    requires forall c :: c in SignatureLetters ==> c !in ua
    ensures forall k :: 0 <= k < 5 ==> !IsSubstring(Signatures[k], ua)
  {
    MissingCharAtNotSubstring(Signatures[0], ua, 0);
    MissingCharAtNotSubstring(Signatures[1], ua, 0);
    MissingCharAtNotSubstring(Signatures[2], ua, 1);
    MissingCharAtNotSubstring(Signatures[3], ua, 4);
    MissingCharAtNotSubstring(Signatures[4], ua, 4);
  }

  lemma LacksSignaturesB(ua: string)
    requires forall c :: c in SignatureLetters ==> c !in ua
    ensures forall k :: 5 <= k < 10 ==> !IsSubstring(Signatures[k], ua)
  {
    MissingCharAtNotSubstring(Signatures[5], ua, 0);
    MissingCharAtNotSubstring(Signatures[6], ua, 4);
    MissingCharAtNotSubstring(Signatures[7], ua, 1);
    MissingCharAtNotSubstring(Signatures[8], ua, 0);
    MissingCharAtNotSubstring(Signatures[9], ua, 0);
  }

  lemma LacksSignaturesC(ua: string)
    requires forall c :: c in SignatureLetters ==> c !in ua
    ensures forall k :: 10 <= k < 15 ==> !IsSubstring(Signatures[k], ua)
  {
    MissingCharAtNotSubstring(Signatures[10], ua, 1);
    MissingCharAtNotSubstring(Signatures[11], ua, 0);
    MissingCharAtNotSubstring(Signatures[12], ua, 1);
    MissingCharAtNotSubstring(Signatures[13], ua, 0);
    MissingCharAtNotSubstring(Signatures[14], ua, 0);
  }

  lemma LacksSignaturesD(ua: string)
    requires forall c :: c in SignatureLetters ==> c !in ua
    ensures forall k :: 15 <= k < 19 ==> !IsSubstring(Signatures[k], ua)
  {
    MissingCharAtNotSubstring(Signatures[15], ua, 0);
    MissingCharAtNotSubstring(Signatures[16], ua, 0);
    MissingCharAtNotSubstring(Signatures[17], ua, 0);
    MissingCharAtNotSubstring(Signatures[18], ua, 2);
  }

  /** A User-Agent that, lower-cased, lacks every character of SignatureLetters is human. */
  lemma AgentWithoutSignatureLettersIsHuman(ua: string)
    requires forall c :: c in SignatureLetters ==> c !in Lower(ua)
    ensures !IsPreviewBot(Some(ua))
  {
    LacksSignaturesA(Lower(ua));
    LacksSignaturesB(Lower(ua));
    LacksSignaturesC(Lower(ua));
    LacksSignaturesD(Lower(ua));
  }

  /** The lower-cased desktop agent lacks every signature letter. */
  lemma DesktopAgentLetters()
    ensures forall c :: c in SignatureLetters ==> c !in "mozilla/5.0 (macintosh)"
  {
  }

  /** An ordinary desktop browser is human. */
  lemma DesktopBrowserIsHuman()
    ensures !IsPreviewBot(Some("Mozilla/5.0 (Macintosh)"))
  {
    assert Lower("Mozilla/5.0 (Macintosh)") == "mozilla/5.0 (macintosh)";
    DesktopAgentLetters();
    AgentWithoutSignatureLettersIsHuman("Mozilla/5.0 (Macintosh)");
  }

  /** The bare `Mozilla/5.0` agent is human. */
  lemma BareMozillaIsHuman()
    ensures !IsPreviewBot(Some("Mozilla/5.0"))
  {
    assert Lower("Mozilla/5.0") == "mozilla/5.0";
    assert forall c :: c in SignatureLetters ==> c !in "mozilla/5.0";
    AgentWithoutSignatureLettersIsHuman("Mozilla/5.0");
  }
}
