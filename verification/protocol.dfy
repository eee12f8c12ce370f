/**
  `getDefaultProtocol` (src/index.js): the URL scheme of the deployed site is
  "https" when the gateway reports "https" among its protocols, compared
  without regard to case, and "http" otherwise.
 */
module Protocol {
  import opened Text

  const Http := "http"
  const Https := "https"

  /**
    `p.toLowerCase() === 'https'`. Only ASCII letters lower-case to one of
    'h', 't', 'p', 's', so ASCII lower-casing decides this test exactly.
   */
  predicate IsHttps(p: string)
    ensures IsHttps(p) <==> |p| == |Https| && forall i :: 0 <= i < |p| ==> LowerChar(p[i]) == Https[i]
  {
    AsciiLower(p) == Https
  }

  /** `protocols.map((i) => i.toLowerCase()).includes('https')` */
  function HasHttps(ps: seq<string>): (b: bool)
    ensures b <==> exists i :: 0 <= i < |ps| && IsHttps(ps[i])
    decreases |ps|
  {
    if |ps| == 0 then false else IsHttps(ps[0]) || HasHttps(ps[1..])
  }

  function DefaultProtocol(ps: seq<string>): (r: string)
    ensures r == Https <==> exists i :: 0 <= i < |ps| && IsHttps(ps[i])
    ensures r == Http <==> forall i :: 0 <= i < |ps| ==> !IsHttps(ps[i])
  {
    if HasHttps(ps) then Https else Http
  }

  /** The spellings `IsHttps` accepts are exactly the 32 case variants of "https". */
  lemma IsHttpsSpellings(p: string)
    ensures IsHttps(p) <==> |p| == 5 && forall i :: 0 <= i < 5 ==> p[i] == "https"[i] || p[i] == "HTTPS"[i]
  {
    if |p| == 5 {
      var l := AsciiLower(p);
      forall i | 0 <= i < 5
        ensures l[i] == Https[i] <==> p[i] == "https"[i] || p[i] == "HTTPS"[i]
      {
        assert l[i] == LowerChar(p[i]);
      }
    }
  }

  /** Renaming protocols to a different case never changes the chosen scheme. */
  lemma DefaultProtocolIgnoresCase(ps: seq<string>, qs: seq<string>)
    requires |ps| == |qs|
    requires forall i :: 0 <= i < |ps| ==> AsciiLower(ps[i]) == AsciiLower(qs[i])
    ensures DefaultProtocol(ps) == DefaultProtocol(qs)
  {
    if DefaultProtocol(ps) == Https {
      var i :| 0 <= i < |ps| && IsHttps(ps[i]);
      assert IsHttps(qs[i]);
    } else if DefaultProtocol(qs) == Https {
      var i :| 0 <= i < |qs| && IsHttps(qs[i]);
      assert IsHttps(ps[i]);
    }
  }

  /** Adding protocols can turn "http" into "https" but never the other way. */
  lemma DefaultProtocolMonotone(ps: seq<string>, qs: seq<string>)
    requires forall p :: p in ps ==> p in qs
    ensures DefaultProtocol(ps) == Https ==> DefaultProtocol(qs) == Https
  {
    if DefaultProtocol(ps) == Https {
      var i :| 0 <= i < |ps| && IsHttps(ps[i]);
      assert ps[i] in qs;
    }
  }

  /** The scheme depends only on which protocols are listed, not on their order or repetition. */
  lemma DefaultProtocolOfSameSet(ps: seq<string>, qs: seq<string>)
    requires forall p :: p in ps <==> p in qs
    ensures DefaultProtocol(ps) == DefaultProtocol(qs)
  {
    DefaultProtocolMonotone(ps, qs);
    DefaultProtocolMonotone(qs, ps);
  }

  lemma DefaultProtocolExamples()
    ensures DefaultProtocol(["HTTP", "HTTPS"]) == Https
    ensures DefaultProtocol(["http"]) == Http
    ensures DefaultProtocol([]) == Http
  {
    assert IsHttps(["HTTP", "HTTPS"][1]) by {
      assert AsciiLower("HTTPS") == Https;
    }
    assert !IsHttps(["http"][0]) by {
      assert |AsciiLower("http")| == 4;
    }
  }
}
