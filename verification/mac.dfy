/**
 * `_extract_mstp_mac`: the MS/TP station address (MAC) of the sender of an
 * I-Am, read off bacpypes' `Address` of the PDU source. The address object
 * is foreign; the model keeps only what the function looks at.
 */
module Mac {
  import opened Common
  import Text

  newtype byte = n: int | 0 <= n < 256

  /** The outcome of Python's `int(x)` on a foreign attribute value. */
  datatype IntCast = Casts(n: int) | Raises

  /**
   * A bacpypes `Address`: its `addrAddr` attribute (`None` when it has none),
   * the bytes of `addrAddress`, the hops of `addrRoute`, and `str(address)`.
   */
  datatype Source = Source(addrAddr: Option<IntCast>, addrAddress: seq<byte>, addrRoute: seq<Source>, text: string)

  /** `n` can be read off `s` or off one of the hops it was routed through. */
  ghost predicate Mentions(s: Source, n: int)
  {
    || s.addrAddr == Some(Casts(n))
    || (|s.addrAddress| > 0 && s.addrAddress[0] as int == n)
    || (n >= 0 && Text.LeadingDigits(s.text) == Some(n as nat))
    || exists i :: 0 <= i < |s.addrRoute| && Mentions(s.addrRoute[i], n)
  }

  /**
   * The priority-ordered fallback: `int(addrAddr)`, then the first byte of a
   * non-empty `addrAddress`, then whatever the last route hop gives (even
   * nothing), and only then the digits leading `str(address)`. An `int` that
   * raises is skipped like a missing attribute.
   */
  function MacOf(s: Source): (r: Option<int>)
    ensures s.addrAddr.Some? && s.addrAddr.value.Casts? ==> r == Some(s.addrAddr.value.n)
    ensures r.Some? ==> Mentions(s, r.value)
    decreases s
  {
    if s.addrAddr.Some? && s.addrAddr.value.Casts? then Some(s.addrAddr.value.n)
    else if |s.addrAddress| > 0 then Some(s.addrAddress[0] as int)
    else if |s.addrRoute| > 0 then
      var hop := s.addrRoute[|s.addrRoute| - 1];
      var r := MacOf(hop);
      assert r.Some? ==> Mentions(hop, r.value);
      r
    else
      match Text.LeadingDigits(s.text)
      case None => None
      case Some(n) => Some(n as int)
  }

  /** `_extract_mstp_mac(pdu_source)`: no source, no MAC. */
  function ExtractMac(source: Option<Source>): (r: Option<int>)
    ensures source.None? ==> r.None?
    ensures r.Some? ==> Mentions(source.value, r.value)
  {
    match source
    case None => None
    case Some(s) => MacOf(s)
  }

  /** Without a usable `addrAddr`, the first byte of a non-empty `addrAddress` wins over route and text. */
  lemma FirstByteNext(s: Source)
    requires s.addrAddr.None? || s.addrAddr == Some(Raises)
    requires |s.addrAddress| > 0
    ensures ExtractMac(Some(s)) == Some(s.addrAddress[0] as int)
  {
  }

  /** A routed address answers for its last hop, even when that hop yields nothing. */
  lemma RouteDelegatesToLastHop(s: Source)
    requires s.addrAddr.None? || s.addrAddr == Some(Raises)
    requires |s.addrAddress| == 0 && |s.addrRoute| > 0
    ensures ExtractMac(Some(s)) == ExtractMac(Some(s.addrRoute[|s.addrRoute| - 1]))
  {
  }

  /**
   * A local station known only by its text form `pad + str(n) + rest`
   * (leading white space, then the number) yields `n`.
   */
  lemma TextualStation(pad: string, n: nat, rest: string)
    requires forall i :: 0 <= i < |pad| ==> Text.IsSpace(pad[i])
    requires rest == [] || !Text.IsDigit(rest[0])
    ensures ExtractMac(Some(Source(None, [], [], pad + Text.NatToString(n) + rest))) == Some(n)
  {
    Text.LeadingDigitsOfNumber(pad, n, rest);
  }

  /** Text that does not start (after white space) with a digit gives no MAC. */
  lemma TextWithoutDigits(text: string)
    requires |Text.LStrip(text)| == 0 || !Text.IsDigit(Text.LStrip(text)[0])
    ensures ExtractMac(Some(Source(None, [], [], text))) == None
  {
  }
}
