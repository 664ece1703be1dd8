/** `webrtc::SrtpTransport`: an RTP transport that wraps another one and
    protects outgoing and unprotects incoming RTP/RTCP packets with SRTP
    (RFC 3711; per-extension header encryption, RFC 6904).

    The transport keeps four optional sessions (send/recv x RTP/RTCP), the
    header-extension ids staged for encryption in each direction, the
    external-auth flag and the cached abs-send-time extension id. The
    cipher itself lives in libsrtp: a session is an abstract value (suite,
    key, header-extension ids captured when it was made, whether external
    auth is in use, tag lengths), and whatever libsrtp answers (keying
    accepted or rejected, the bytes a packet turns into, whether a tag
    verifies) is a parameter of the operation that asks it.

    The first half of the module states the transport's behaviour on values
    (`SrtpState` and functions over it) and proves its properties; the class
    `SrtpTransport` at the end holds the same state in fields and its
    methods are proved against those functions. */
module SrtpTransports {
  import opened Wrappers

  type Byte = bv8

  // Crypto suite ids of the DTLS-SRTP protection profiles (section 4.1.2 of
  // RFC 5764 and section 14.2 of RFC 7714).
  const SrtpAes128CmSha1_80: int := 1
  const SrtpAes128CmSha1_32: int := 2
  const SrtpAeadAes128Gcm: int := 7
  const SrtpAeadAes256Gcm: int := 8

  /** AES-GCM suites authenticate inside the cipher, so their tag cannot be
      written by external hardware. */
  predicate IsGcmCryptoSuite(cs: int) {
    cs == SrtpAeadAes128Gcm || cs == SrtpAeadAes256Gcm
  }

  /** Every SRTCP packet carries the E flag and the 31-bit SRTCP index in
      one 32-bit word (section 3.4 of RFC 3711). */
  const SrtcpIndexLen: nat := 4

  /** libsrtp's answer when a session is keyed: rejected (unsupported suite,
      wrong key length), or accepted with the suite's tag lengths. */
  datatype KeyingOutcome = Rejected | Accepted(rtpAuthTagLen: nat, rtcpAuthTagLen: nat)

  /** A keyed session. Sessions are never changed: a rekey replaces them. */
  datatype SrtpSession = SrtpSession(
    cryptoSuite: int,
    key: seq<Byte>,
    encryptedHeaderExtensionIds: seq<int>,
    externalAuthActive: bool,
    rtpAuthTagLen: nat,
    rtcpAuthTagLen: nat)

  /** Whose session description a list of header-extension ids comes from. */
  datatype ContentSource = Local | Remote

  /** Everything `SrtpTransport` keeps besides the wrapped transport. */
  datatype SrtpState = SrtpState(
    sendSession: Option<SrtpSession>,
    recvSession: Option<SrtpSession>,
    sendRtcpSession: Option<SrtpSession>,
    recvRtcpSession: Option<SrtpSession>,
    sendEncryptedHeaderExtensionIds: seq<int>,
    recvEncryptedHeaderExtensionIds: seq<int>,
    externalAuthEnabled: bool,
    rtpAbsSendTimeExtnId: int)

  /** A session of which no external hardware writes the tag. */
  predicate InternalAuth(session: Option<SrtpSession>) {
    session.Some? ==> !session.value.externalAuthActive
  }

  /** The invariant every reachable state keeps: sessions come in send/recv
      pairs, only the RTP send session ever uses external auth, and it does
      so only if external auth was enabled and its suite is not GCM. */
  predicate WellFormed(s: SrtpState) {
    && s.sendSession.Some? == s.recvSession.Some?
    && s.sendRtcpSession.Some? == s.recvRtcpSession.Some?
    && (s.sendSession.Some? && s.sendSession.value.externalAuthActive ==>
          s.externalAuthEnabled && !IsGcmCryptoSuite(s.sendSession.value.cryptoSuite))
    && InternalAuth(s.recvSession)
    && InternalAuth(s.sendRtcpSession)
    && InternalAuth(s.recvRtcpSession)
  }

  /** The transport is active once both RTP sessions exist. */
  predicate Active(s: SrtpState) {
    s.sendSession.Some? && s.recvSession.Some?
  }

  /** A freshly constructed transport. */
  function Initial(): (s: SrtpState)
    ensures WellFormed(s) && !Active(s)
    ensures s.sendRtcpSession.None? && s.recvRtcpSession.None?
    ensures !s.externalAuthEnabled && s.rtpAbsSendTimeExtnId == -1
  {
    SrtpState(None, None, None, None, [], [], false, -1)
  }

  /** A session keyed with (cs, key), capturing the header-extension ids
      staged at this moment; None when libsrtp rejects the keying. */
  function NewSession(cs: int, key: seq<Byte>, ids: seq<int>, externalAuth: bool,
                      outcome: KeyingOutcome): Option<SrtpSession>
  {
    match outcome
    case Rejected => None
    case Accepted(rtpTag, rtcpTag) =>
      Some(SrtpSession(cs, key, ids, externalAuth && !IsGcmCryptoSuite(cs), rtpTag, rtcpTag))
  }

  /** `SetRtpParams`: new RTP send/recv sessions replace the old pair. The
      send session uses the ids staged for sending and external auth if it
      is enabled; the recv session uses the ids staged for receiving. If
      libsrtp rejects either key, the transport falls back to its initial
      keying state: all four sessions go, as `ResetParams` does. */
  function AfterSetRtpParams(s: SrtpState, sendCs: int, sendKey: seq<Byte>,
                             recvCs: int, recvKey: seq<Byte>,
                             sendOutcome: KeyingOutcome, recvOutcome: KeyingOutcome): (r: SrtpState)
    requires WellFormed(s)
    ensures WellFormed(r)
    ensures Active(r) <==> sendOutcome.Accepted? && recvOutcome.Accepted?
    ensures Active(r) ==>
              r.sendRtcpSession == s.sendRtcpSession && r.recvRtcpSession == s.recvRtcpSession
    ensures !Active(r) ==> r.sendRtcpSession.None? && r.recvRtcpSession.None?
    ensures r.sendEncryptedHeaderExtensionIds == s.sendEncryptedHeaderExtensionIds
    ensures r.recvEncryptedHeaderExtensionIds == s.recvEncryptedHeaderExtensionIds
    ensures r.externalAuthEnabled == s.externalAuthEnabled
    ensures r.rtpAbsSendTimeExtnId == s.rtpAbsSendTimeExtnId
  {
    var send := NewSession(sendCs, sendKey, s.sendEncryptedHeaderExtensionIds,
                           s.externalAuthEnabled, sendOutcome);
    var recv := NewSession(recvCs, recvKey, s.recvEncryptedHeaderExtensionIds, false, recvOutcome);
    if send.Some? && recv.Some? then
      s.(sendSession := send, recvSession := recv)
    else
      AfterResetParams(s)
  }

  /** `SetRtcpParams`: new RTCP send/recv sessions replace the old pair.
      RTCP has no header extensions and never uses external auth. If libsrtp
      rejects either key, no RTCP session is left. */
  function AfterSetRtcpParams(s: SrtpState, sendCs: int, sendKey: seq<Byte>,
                              recvCs: int, recvKey: seq<Byte>,
                              sendOutcome: KeyingOutcome, recvOutcome: KeyingOutcome): (r: SrtpState)
    requires WellFormed(s)
    ensures WellFormed(r)
    ensures r.sendRtcpSession.Some? <==> sendOutcome.Accepted? && recvOutcome.Accepted?
    ensures r.sendSession == s.sendSession && r.recvSession == s.recvSession
    ensures Active(r) == Active(s)
    ensures r.sendEncryptedHeaderExtensionIds == s.sendEncryptedHeaderExtensionIds
    ensures r.recvEncryptedHeaderExtensionIds == s.recvEncryptedHeaderExtensionIds
    ensures r.externalAuthEnabled == s.externalAuthEnabled
    ensures r.rtpAbsSendTimeExtnId == s.rtpAbsSendTimeExtnId
  {
    var send := NewSession(sendCs, sendKey, [], false, sendOutcome);
    var recv := NewSession(recvCs, recvKey, [], false, recvOutcome);
    if send.Some? && recv.Some? then
      s.(sendRtcpSession := send, recvRtcpSession := recv)
    else
      s.(sendRtcpSession := None, recvRtcpSession := None)
  }

  /** `ResetParams`: all four sessions go; nothing else changes. */
  function AfterResetParams(s: SrtpState): (r: SrtpState)
    ensures WellFormed(r) && !Active(r)
    ensures r.sendRtcpSession.None? && r.recvRtcpSession.None?
    ensures r.sendEncryptedHeaderExtensionIds == s.sendEncryptedHeaderExtensionIds
    ensures r.recvEncryptedHeaderExtensionIds == s.recvEncryptedHeaderExtensionIds
    ensures r.externalAuthEnabled == s.externalAuthEnabled
    ensures r.rtpAbsSendTimeExtnId == s.rtpAbsSendTimeExtnId
  {
    s.(sendSession := None, recvSession := None, sendRtcpSession := None, recvRtcpSession := None)
  }

  /** `SetEncryptedHeaderExtensionIds`: the ids of the local description
      apply to what this endpoint receives, those of the remote description
      to what it sends. The whole list is replaced; no session changes. */
  function AfterSetEncryptedHeaderExtensionIds(s: SrtpState, source: ContentSource,
                                               ids: seq<int>): (r: SrtpState)
    requires WellFormed(s)
    ensures WellFormed(r)
    ensures source == Local ==>
              r.recvEncryptedHeaderExtensionIds == ids &&
              r.sendEncryptedHeaderExtensionIds == s.sendEncryptedHeaderExtensionIds
    ensures source == Remote ==>
              r.sendEncryptedHeaderExtensionIds == ids &&
              r.recvEncryptedHeaderExtensionIds == s.recvEncryptedHeaderExtensionIds
    ensures r.sendSession == s.sendSession && r.recvSession == s.recvSession
    ensures r.sendRtcpSession == s.sendRtcpSession && r.recvRtcpSession == s.recvRtcpSession
    ensures r.externalAuthEnabled == s.externalAuthEnabled
    ensures r.rtpAbsSendTimeExtnId == s.rtpAbsSendTimeExtnId
  {
    match source
    case Local => s.(recvEncryptedHeaderExtensionIds := ids)
    case Remote => s.(sendEncryptedHeaderExtensionIds := ids)
  }

  /** `EnableExternalAuth`: only valid before the RTP params are set. */
  function AfterEnableExternalAuth(s: SrtpState): (r: SrtpState)
    requires WellFormed(s) && !Active(s)
    ensures WellFormed(r) && r.externalAuthEnabled && !Active(r)
    ensures r.sendRtcpSession == s.sendRtcpSession && r.recvRtcpSession == s.recvRtcpSession
    ensures r.sendEncryptedHeaderExtensionIds == s.sendEncryptedHeaderExtensionIds
    ensures r.recvEncryptedHeaderExtensionIds == s.recvEncryptedHeaderExtensionIds
    ensures r.rtpAbsSendTimeExtnId == s.rtpAbsSendTimeExtnId
  {
    s.(externalAuthEnabled := true)
  }

  /** `IsExternalAuthActive`: whether the RTP send session leaves its tag to
      external hardware; false while the transport is not active. */
  function ExternalAuthActive(s: SrtpState): (b: bool)
    requires WellFormed(s)
    ensures b ==> Active(s) && s.externalAuthEnabled
                  && !IsGcmCryptoSuite(s.sendSession.value.cryptoSuite)
  {
    Active(s) && s.sendSession.value.externalAuthActive
  }

  /** `GetSrtpOverhead`: the bytes protecting an RTP packet adds, known
      once the transport is active. */
  function SrtpOverhead(s: SrtpState): (r: Option<nat>)
    ensures r.Some? <==> Active(s)
  {
    if Active(s) then Some(s.sendSession.value.rtpAuthTagLen) else None
  }

  /** The sessions RTCP goes through: the dedicated RTCP ones when they
      exist, otherwise the RTP ones (RTCP muxed onto RTP). */
  function RtcpSendSession(s: SrtpState): Option<SrtpSession> {
    if s.sendRtcpSession.Some? then s.sendRtcpSession else s.sendSession
  }

  function RtcpRecvSession(s: SrtpState): Option<SrtpSession> {
    if s.recvRtcpSession.Some? then s.recvRtcpSession else s.recvSession
  }

  /** The length `ProtectRtp` reports for an inLen-byte packet in a buffer
      of maxLen bytes, or None when it fails: the transport is not active,
      or the buffer has no room for the authentication tag. */
  function ProtectRtpLength(s: SrtpState, inLen: nat, maxLen: int): (r: Option<nat>)
    ensures r.Some? ==> Active(s) && inLen <= r.value <= maxLen
  {
    if !Active(s) then None
    else
      var need := inLen + s.sendSession.value.rtpAuthTagLen;
      if maxLen < need then None else Some(need)
  }

  /** The same for `ProtectRtcp`, which adds the SRTCP index word and the
      RTCP tag of the session RTCP goes through. */
  function ProtectRtcpLength(s: SrtpState, inLen: nat, maxLen: int): (r: Option<nat>)
    ensures r.Some? ==> Active(s) && inLen + SrtcpIndexLen <= r.value <= maxLen
  {
    if !Active(s) then None
    else
      var need := inLen + SrtcpIndexLen + RtcpSendSession(s).value.rtcpAuthTagLen;
      if maxLen < need then None else Some(need)
  }

  /** The length `UnprotectRtp` reports for an inLen-byte packet, or None
      when it fails: the transport is not active, the packet is shorter than
      a tag, or the tag does not verify (`authentic` is libsrtp's verdict). */
  function UnprotectRtpLength(s: SrtpState, inLen: nat, authentic: bool): (r: Option<nat>)
    ensures r.Some? ==> Active(s) && authentic && r.value <= inLen
  {
    if !Active(s) || !authentic then None
    else
      var tag := s.recvSession.value.rtpAuthTagLen;
      if inLen < tag then None else Some(inLen - tag)
  }

  /** The same for `UnprotectRtcp`, which strips the tag and the SRTCP
      index word. */
  function UnprotectRtcpLength(s: SrtpState, inLen: nat, authentic: bool): (r: Option<nat>)
    ensures r.Some? ==> Active(s) && authentic && r.value + SrtcpIndexLen <= inLen
  {
    if !Active(s) || !authentic then None
    else
      var trailer := SrtcpIndexLen + RtcpRecvSession(s).value.rtcpAuthTagLen;
      if inLen < trailer then None else Some(inLen - trailer)
  }

  // ---------------------------------------------------------------------
  // Properties of the state machine.

  /** RTCP sessions play no part in whether the transport is active. */
  lemma ActiveIgnoresRtcpSessions(s: SrtpState, sendRtcp: Option<SrtpSession>,
                                  recvRtcp: Option<SrtpSession>)
    ensures Active(s.(sendRtcpSession := sendRtcp, recvRtcpSession := recvRtcp)) == Active(s)
  {
  }

  /** A successful RTP rekey and an RTCP rekey are independent: applying
      them in either order gives the same transport. (A rejected RTP key
      clears the RTCP sessions too, so there the order matters.) */
  lemma RtpAndRtcpRekeyCommute(s: SrtpState,
                               rtpSendCs: int, rtpSendKey: seq<Byte>, rtpRecvCs: int, rtpRecvKey: seq<Byte>,
                               rtpSend: KeyingOutcome, rtpRecv: KeyingOutcome,
                               rtcpSendCs: int, rtcpSendKey: seq<Byte>, rtcpRecvCs: int, rtcpRecvKey: seq<Byte>,
                               rtcpSend: KeyingOutcome, rtcpRecv: KeyingOutcome)
    requires WellFormed(s) && rtpSend.Accepted? && rtpRecv.Accepted?
    ensures AfterSetRtcpParams(AfterSetRtpParams(s, rtpSendCs, rtpSendKey, rtpRecvCs, rtpRecvKey, rtpSend, rtpRecv),
                               rtcpSendCs, rtcpSendKey, rtcpRecvCs, rtcpRecvKey, rtcpSend, rtcpRecv)
         == AfterSetRtpParams(AfterSetRtcpParams(s, rtcpSendCs, rtcpSendKey, rtcpRecvCs, rtcpRecvKey, rtcpSend, rtcpRecv),
                              rtpSendCs, rtpSendKey, rtpRecvCs, rtpRecvKey, rtpSend, rtpRecv)
  {
  }

  /** A successful `SetRtpParams` keys both sessions as asked, with the tag
      lengths libsrtp reports, and captures the header-extension ids staged
      at that moment; the send session uses external auth exactly when it
      is enabled and the send suite is not GCM, the recv session never. */
  lemma SetRtpParamsCapturesStagedIds(s: SrtpState, sendCs: int, sendKey: seq<Byte>,
                                      recvCs: int, recvKey: seq<Byte>,
                                      sendOutcome: KeyingOutcome, recvOutcome: KeyingOutcome)
    requires WellFormed(s) && sendOutcome.Accepted? && recvOutcome.Accepted?
    ensures var r := AfterSetRtpParams(s, sendCs, sendKey, recvCs, recvKey, sendOutcome, recvOutcome);
            && Active(r)
            && r.sendSession.value.cryptoSuite == sendCs && r.sendSession.value.key == sendKey
            && r.recvSession.value.cryptoSuite == recvCs && r.recvSession.value.key == recvKey
            && r.sendSession.value.encryptedHeaderExtensionIds == s.sendEncryptedHeaderExtensionIds
            && r.recvSession.value.encryptedHeaderExtensionIds == s.recvEncryptedHeaderExtensionIds
            && r.sendSession.value.rtpAuthTagLen == sendOutcome.rtpAuthTagLen
            && r.sendSession.value.rtcpAuthTagLen == sendOutcome.rtcpAuthTagLen
            && r.recvSession.value.rtpAuthTagLen == recvOutcome.rtpAuthTagLen
            && r.recvSession.value.rtcpAuthTagLen == recvOutcome.rtcpAuthTagLen
            && r.sendSession.value.externalAuthActive == (s.externalAuthEnabled && !IsGcmCryptoSuite(sendCs))
            && !r.recvSession.value.externalAuthActive
  {
  }

  /** Whatever state it starts from (first keying or rekey), `SetRtpParams`
      leaves external auth active exactly when both keys are accepted,
      external auth is enabled and the send suite is not GCM; the overhead
      it then reports is the RTP tag length libsrtp gave the send suite. */
  lemma ExternalAuthAndOverheadAfterSetRtpParams(s: SrtpState, sendCs: int, sendKey: seq<Byte>,
                                                 recvCs: int, recvKey: seq<Byte>,
                                                 sendOutcome: KeyingOutcome, recvOutcome: KeyingOutcome)
    requires WellFormed(s)
    ensures var r := AfterSetRtpParams(s, sendCs, sendKey, recvCs, recvKey, sendOutcome, recvOutcome);
            && (ExternalAuthActive(r) <==>
                  sendOutcome.Accepted? && recvOutcome.Accepted?
                  && s.externalAuthEnabled && !IsGcmCryptoSuite(sendCs))
            && SrtpOverhead(r) == (if sendOutcome.Accepted? && recvOutcome.Accepted?
                                   then Some(sendOutcome.rtpAuthTagLen) else None)
  {
  }

  /** A rejected RTP key leaves the transport as `ResetParams` would: no
      session at all, the staged ids, the external-auth flag and the cached
      extension id kept. */
  lemma RejectedRtpKeyingResetsAllSessions(s: SrtpState, sendCs: int, sendKey: seq<Byte>,
                                           recvCs: int, recvKey: seq<Byte>,
                                           sendOutcome: KeyingOutcome, recvOutcome: KeyingOutcome)
    requires WellFormed(s) && (sendOutcome.Rejected? || recvOutcome.Rejected?)
    ensures AfterSetRtpParams(s, sendCs, sendKey, recvCs, recvKey, sendOutcome, recvOutcome)
            == AfterResetParams(s)
  {
  }

  /** A successful `SetRtcpParams` keys both RTCP sessions as asked, with
      the tag lengths libsrtp reports, replacing whatever pair was there;
      RTCP sessions capture no header-extension ids and never use external
      auth. */
  lemma SetRtcpParamsInstallsRequestedSessions(s: SrtpState, sendCs: int, sendKey: seq<Byte>,
                                               recvCs: int, recvKey: seq<Byte>,
                                               sendOutcome: KeyingOutcome, recvOutcome: KeyingOutcome)
    requires WellFormed(s) && sendOutcome.Accepted? && recvOutcome.Accepted?
    ensures var r := AfterSetRtcpParams(s, sendCs, sendKey, recvCs, recvKey, sendOutcome, recvOutcome);
            && r.sendRtcpSession.Some? && r.recvRtcpSession.Some?
            && r.sendRtcpSession.value.cryptoSuite == sendCs && r.sendRtcpSession.value.key == sendKey
            && r.sendRtcpSession.value.rtpAuthTagLen == sendOutcome.rtpAuthTagLen
            && r.sendRtcpSession.value.rtcpAuthTagLen == sendOutcome.rtcpAuthTagLen
            && r.recvRtcpSession.value.cryptoSuite == recvCs && r.recvRtcpSession.value.key == recvKey
            && r.recvRtcpSession.value.rtpAuthTagLen == recvOutcome.rtpAuthTagLen
            && r.recvRtcpSession.value.rtcpAuthTagLen == recvOutcome.rtcpAuthTagLen
            && r.sendRtcpSession.value.encryptedHeaderExtensionIds == []
            && r.recvRtcpSession.value.encryptedHeaderExtensionIds == []
            && !r.sendRtcpSession.value.externalAuthActive
            && !r.recvRtcpSession.value.externalAuthActive
  {
  }

  /** Staged ids take effect at the next `SetRtpParams` and not before:
      staging leaves every session as it was, and the next successful
      `SetRtpParams` builds the matching session with exactly these ids. */
  lemma StagedIdsTakeEffectAtNextSetRtpParams(s: SrtpState, source: ContentSource, ids: seq<int>,
                                              sendCs: int, sendKey: seq<Byte>,
                                              recvCs: int, recvKey: seq<Byte>,
                                              sendOutcome: KeyingOutcome, recvOutcome: KeyingOutcome)
    requires WellFormed(s) && sendOutcome.Accepted? && recvOutcome.Accepted?
    ensures var staged := AfterSetEncryptedHeaderExtensionIds(s, source, ids);
            && staged.sendSession == s.sendSession && staged.recvSession == s.recvSession
            && var r := AfterSetRtpParams(staged, sendCs, sendKey, recvCs, recvKey, sendOutcome, recvOutcome);
               (source == Remote ==> r.sendSession.value.encryptedHeaderExtensionIds == ids)
               && (source == Local ==> r.recvSession.value.encryptedHeaderExtensionIds == ids)
  {
  }

  /** Enabling external auth before the RTP params are set makes it active
      exactly when the RTP keying succeeds with a non-GCM send suite. */
  lemma ExternalAuthActiveAfterEnable(s: SrtpState, sendCs: int, sendKey: seq<Byte>,
                                      recvCs: int, recvKey: seq<Byte>,
                                      sendOutcome: KeyingOutcome, recvOutcome: KeyingOutcome)
    requires WellFormed(s) && !Active(s)
    ensures ExternalAuthActive(AfterSetRtpParams(AfterEnableExternalAuth(s), sendCs, sendKey,
                                                 recvCs, recvKey, sendOutcome, recvOutcome))
            <==> sendOutcome.Accepted? && recvOutcome.Accepted? && !IsGcmCryptoSuite(sendCs)
  {
  }

  /** Without `EnableExternalAuth`, external auth never becomes active. */
  lemma ExternalAuthInactiveUnlessEnabled(s: SrtpState, sendCs: int, sendKey: seq<Byte>,
                                          recvCs: int, recvKey: seq<Byte>,
                                          sendOutcome: KeyingOutcome, recvOutcome: KeyingOutcome)
    requires WellFormed(s) && !s.externalAuthEnabled
    ensures !ExternalAuthActive(AfterSetRtpParams(s, sendCs, sendKey, recvCs, recvKey,
                                                  sendOutcome, recvOutcome))
  {
  }

  /** A successful RTP protect grows the packet by exactly the overhead
      `GetSrtpOverhead` reports. */
  lemma ProtectRtpGrowsByOverhead(s: SrtpState, inLen: nat, maxLen: int)
    requires ProtectRtpLength(s, inLen, maxLen).Some?
    ensures SrtpOverhead(s) == Some(ProtectRtpLength(s, inLen, maxLen).value - inLen)
  {
  }

  /** Lengths round-trip: a packet protected by one transport and
      unprotected by a peer whose recv session uses the same tag length gets
      its original length back. */
  lemma RtpLengthRoundTrip(s: SrtpState, peer: SrtpState, inLen: nat, maxLen: int)
    requires ProtectRtpLength(s, inLen, maxLen).Some? && Active(peer)
    requires peer.recvSession.value.rtpAuthTagLen == s.sendSession.value.rtpAuthTagLen
    ensures UnprotectRtpLength(peer, ProtectRtpLength(s, inLen, maxLen).value, true) == Some(inLen)
  {
  }

  lemma RtcpLengthRoundTrip(s: SrtpState, peer: SrtpState, inLen: nat, maxLen: int)
    requires ProtectRtcpLength(s, inLen, maxLen).Some? && Active(peer)
    requires RtcpRecvSession(peer).value.rtcpAuthTagLen == RtcpSendSession(s).value.rtcpAuthTagLen
    ensures UnprotectRtcpLength(peer, ProtectRtcpLength(s, inLen, maxLen).value, true) == Some(inLen)
  {
  }

  /** Nothing can be protected or unprotected until the RTP params are set,
      whether RTCP sessions exist or not. */
  lemma InactiveTransportProtectsNothing(s: SrtpState, inLen: nat, maxLen: int, authentic: bool)
    requires WellFormed(s) && !Active(s)
    ensures ProtectRtpLength(s, inLen, maxLen).None? && ProtectRtcpLength(s, inLen, maxLen).None?
    ensures UnprotectRtpLength(s, inLen, authentic).None?
    ensures UnprotectRtcpLength(s, inLen, authentic).None?
  {
  }

  /** RTCP goes through the dedicated RTCP sessions once they exist. */
  lemma RtcpUsesRtcpSessionsWhenSet(s: SrtpState, sendCs: int, sendKey: seq<Byte>,
                                    recvCs: int, recvKey: seq<Byte>,
                                    rtpTag: nat, rtcpTag: nat, inLen: nat, maxLen: int)
    requires WellFormed(s) && Active(s)
    ensures var r := AfterSetRtcpParams(s, sendCs, sendKey, recvCs, recvKey,
                                        Accepted(rtpTag, rtcpTag), Accepted(rtpTag, rtcpTag));
            ProtectRtcpLength(r, inLen, maxLen) ==
              if maxLen < inLen + SrtcpIndexLen + rtcpTag then None
              else Some(inLen + SrtcpIndexLen + rtcpTag)
  {
  }

  // ---------------------------------------------------------------------
  // The wrapped RTP transport.

  /** A packet transport below the RTP transport; only its identity and
      whether it is writable matter here. */
  datatype PacketTransport = PacketTransport(id: nat, writable: bool)

  datatype RtpTransportParameters = RtpTransportParameters(rtcpMux: bool, rtcpReducedSize: bool,
                                                           cname: string)

  datatype RtcError = RtcOk | RtcFailure(message: string)

  /** A stand-in for the wrapped `RtpTransportInternal`, whose implementation
      is not part of this model: it records what it is given and answers
      from what it recorded. */
  class RtpTransportInternal {
    var rtcpMuxEnabled: bool
    var rtpPacketTransport: Option<PacketTransport>
    var rtcpPacketTransport: Option<PacketTransport>
    var handledPayloadTypes: set<int>
    var parameters: RtpTransportParameters

    constructor (rtcpMuxEnabled: bool)
      ensures this.rtcpMuxEnabled == rtcpMuxEnabled
      ensures rtpPacketTransport.None? && rtcpPacketTransport.None?
      ensures handledPayloadTypes == {}
    {
      this.rtcpMuxEnabled := rtcpMuxEnabled;
      rtpPacketTransport, rtcpPacketTransport := None, None;
      handledPayloadTypes := {};
      parameters := RtpTransportParameters(rtcpMuxEnabled, false, "");
    }

    function IsWritable(rtcp: bool): bool
      reads this
    {
      var transport := if rtcp && !rtcpMuxEnabled then rtcpPacketTransport else rtpPacketTransport;
      transport.Some? && transport.value.writable
    }

    method SetRtcpMuxEnabled(enable: bool)
      modifies this
      ensures rtcpMuxEnabled == enable
      ensures rtpPacketTransport == old(rtpPacketTransport) && rtcpPacketTransport == old(rtcpPacketTransport)
      ensures handledPayloadTypes == old(handledPayloadTypes) && parameters == old(parameters)
    {
      rtcpMuxEnabled := enable;
    }

    method SetRtpPacketTransport(rtp: Option<PacketTransport>)
      modifies this
      ensures rtpPacketTransport == rtp
      ensures rtcpMuxEnabled == old(rtcpMuxEnabled) && rtcpPacketTransport == old(rtcpPacketTransport)
      ensures handledPayloadTypes == old(handledPayloadTypes) && parameters == old(parameters)
    {
      rtpPacketTransport := rtp;
    }

    method SetRtcpPacketTransport(rtcp: Option<PacketTransport>)
      modifies this
      ensures rtcpPacketTransport == rtcp
      ensures rtcpMuxEnabled == old(rtcpMuxEnabled) && rtpPacketTransport == old(rtpPacketTransport)
      ensures handledPayloadTypes == old(handledPayloadTypes) && parameters == old(parameters)
    {
      rtcpPacketTransport := rtcp;
    }

    method AddHandledPayloadType(payloadType: int)
      modifies this
      ensures handledPayloadTypes == old(handledPayloadTypes) + {payloadType}
      ensures rtcpMuxEnabled == old(rtcpMuxEnabled) && parameters == old(parameters)
      ensures rtpPacketTransport == old(rtpPacketTransport) && rtcpPacketTransport == old(rtcpPacketTransport)
    {
      handledPayloadTypes := handledPayloadTypes + {payloadType};
    }

    method SetParameters(p: RtpTransportParameters) returns (e: RtcError)
      modifies this
      ensures e == RtcOk && parameters == p
      ensures rtcpMuxEnabled == old(rtcpMuxEnabled) && handledPayloadTypes == old(handledPayloadTypes)
      ensures rtpPacketTransport == old(rtpPacketTransport) && rtcpPacketTransport == old(rtcpPacketTransport)
    {
      parameters := p;
      e := RtcOk;
    }
  }

  // ---------------------------------------------------------------------
  // The transport itself.

  /** Writes what libsrtp turned a packet into back into the caller's
      buffer, provided the buffer holds `need` bytes and libsrtp produced a
      result; otherwise leaves the buffer alone. */
  method WriteBack(data: array<Byte>, need: Option<nat>, result: Option<seq<Byte>>)
    returns (ok: bool, outLen: nat)
    requires need.Some? && result.Some? ==> need.value <= data.Length && |result.value| == need.value
    modifies data
    ensures ok <==> need.Some? && result.Some?
    ensures ok ==> outLen == need.value && data[..outLen] == result.value
                   && data[outLen..] == old(data[outLen..])
    ensures !ok ==> data[..] == old(data[..])
  {
    if need.None? || result.None? {
      return false, 0;
    }
    outLen := need.value;
    var bytes := result.value;
    forall i | 0 <= i < outLen {
      data[i] := bytes[i];
    }
    ok := true;
  }

  class SrtpTransport {
    const contentName: string
    const rtpTransport: RtpTransportInternal

    var sendSession: Option<SrtpSession>
    var recvSession: Option<SrtpSession>
    var sendRtcpSession: Option<SrtpSession>
    var recvRtcpSession: Option<SrtpSession>

    var sendEncryptedHeaderExtensionIds: seq<int>
    var recvEncryptedHeaderExtensionIds: seq<int>
    var externalAuthEnabled: bool

    var rtpAbsSendTimeExtnId: int

    function State(): SrtpState
      reads this
    {
      SrtpState(sendSession, recvSession, sendRtcpSession, recvRtcpSession,
                sendEncryptedHeaderExtensionIds, recvEncryptedHeaderExtensionIds,
                externalAuthEnabled, rtpAbsSendTimeExtnId)
    }

    ghost predicate Valid()
      reads this
    {
      WellFormed(State())
    }

    /** `SrtpTransport(bool rtcp_mux_enabled, content_name)`: wraps a new
        RTP transport. */
    constructor WithRtcpMux(rtcpMuxEnabled: bool, contentName: string)
      ensures Valid() && State() == Initial() && this.contentName == contentName
      ensures fresh(rtpTransport) && rtpTransport.rtcpMuxEnabled == rtcpMuxEnabled
    {
      this.contentName := contentName;
      rtpTransport := new RtpTransportInternal(rtcpMuxEnabled);
      sendSession, recvSession, sendRtcpSession, recvRtcpSession := None, None, None, None;
      sendEncryptedHeaderExtensionIds, recvEncryptedHeaderExtensionIds := [], [];
      externalAuthEnabled := false;
      rtpAbsSendTimeExtnId := -1;
    }

    /** `SrtpTransport(transport, content_name)`: wraps the given transport. */
    constructor Wrap(transport: RtpTransportInternal, contentName: string)
      ensures Valid() && State() == Initial() && this.contentName == contentName
      ensures rtpTransport == transport
    {
      this.contentName := contentName;
      rtpTransport := transport;
      sendSession, recvSession, sendRtcpSession, recvRtcpSession := None, None, None, None;
      sendEncryptedHeaderExtensionIds, recvEncryptedHeaderExtensionIds := [], [];
      externalAuthEnabled := false;
      rtpAbsSendTimeExtnId := -1;
    }

    // Pass-through operations: forwarded to the wrapped transport, no
    // crypto state of their own.

    method SetRtcpMuxEnabled(enable: bool)
      modifies rtpTransport
      ensures rtpTransport.rtcpMuxEnabled == enable
      ensures rtpTransport.rtpPacketTransport == old(rtpTransport.rtpPacketTransport)
      ensures rtpTransport.rtcpPacketTransport == old(rtpTransport.rtcpPacketTransport)
      ensures rtpTransport.handledPayloadTypes == old(rtpTransport.handledPayloadTypes)
      ensures rtpTransport.parameters == old(rtpTransport.parameters)
      ensures State() == old(State())
    {
      rtpTransport.SetRtcpMuxEnabled(enable);
    }

    function RtpPacketTransport(): (t: Option<PacketTransport>)
      reads this, rtpTransport
      ensures t == rtpTransport.rtpPacketTransport
    {
      rtpTransport.rtpPacketTransport
    }

    method SetRtpPacketTransport(rtp: Option<PacketTransport>)
      modifies rtpTransport
      ensures rtpTransport.rtpPacketTransport == rtp
      ensures rtpTransport.rtcpPacketTransport == old(rtpTransport.rtcpPacketTransport)
      ensures rtpTransport.rtcpMuxEnabled == old(rtpTransport.rtcpMuxEnabled)
      ensures rtpTransport.handledPayloadTypes == old(rtpTransport.handledPayloadTypes)
      ensures rtpTransport.parameters == old(rtpTransport.parameters)
      ensures State() == old(State())
    {
      rtpTransport.SetRtpPacketTransport(rtp);
    }

    function RtcpPacketTransport(): (t: Option<PacketTransport>)
      reads this, rtpTransport
      ensures t == rtpTransport.rtcpPacketTransport
    {
      rtpTransport.rtcpPacketTransport
    }

    method SetRtcpPacketTransport(rtcp: Option<PacketTransport>)
      modifies rtpTransport
      ensures rtpTransport.rtcpPacketTransport == rtcp
      ensures rtpTransport.rtpPacketTransport == old(rtpTransport.rtpPacketTransport)
      ensures rtpTransport.rtcpMuxEnabled == old(rtpTransport.rtcpMuxEnabled)
      ensures rtpTransport.handledPayloadTypes == old(rtpTransport.handledPayloadTypes)
      ensures rtpTransport.parameters == old(rtpTransport.parameters)
      ensures State() == old(State())
    {
      rtpTransport.SetRtcpPacketTransport(rtcp);
    }

    function IsWritable(rtcp: bool): (b: bool)
      reads this, rtpTransport
      ensures b == rtpTransport.IsWritable(rtcp)
    {
      rtpTransport.IsWritable(rtcp)
    }

    function HandlesPayloadType(payloadType: int): (b: bool)
      reads this, rtpTransport
      ensures b <==> payloadType in rtpTransport.handledPayloadTypes
    {
      payloadType in rtpTransport.handledPayloadTypes
    }

    method AddHandledPayloadType(payloadType: int)
      modifies rtpTransport
      ensures rtpTransport.handledPayloadTypes == old(rtpTransport.handledPayloadTypes) + {payloadType}
      ensures rtpTransport.rtcpMuxEnabled == old(rtpTransport.rtcpMuxEnabled)
      ensures rtpTransport.parameters == old(rtpTransport.parameters)
      ensures rtpTransport.rtpPacketTransport == old(rtpTransport.rtpPacketTransport)
      ensures rtpTransport.rtcpPacketTransport == old(rtpTransport.rtcpPacketTransport)
      ensures State() == old(State())
    {
      rtpTransport.AddHandledPayloadType(payloadType);
    }

    method SetParameters(parameters: RtpTransportParameters) returns (e: RtcError)
      modifies rtpTransport
      ensures e == RtcOk && rtpTransport.parameters == parameters
      ensures rtpTransport.rtcpMuxEnabled == old(rtpTransport.rtcpMuxEnabled)
      ensures rtpTransport.handledPayloadTypes == old(rtpTransport.handledPayloadTypes)
      ensures rtpTransport.rtpPacketTransport == old(rtpTransport.rtpPacketTransport)
      ensures rtpTransport.rtcpPacketTransport == old(rtpTransport.rtcpPacketTransport)
      ensures State() == old(State())
    {
      e := rtpTransport.SetParameters(parameters);
    }

    function GetParameters(): (p: RtpTransportParameters)
      reads this, rtpTransport
      ensures p == rtpTransport.parameters
    {
      rtpTransport.parameters
    }

    /** `GetInternal()`: there is no RtpTransportAdapter behind this
        transport (an adapter handle would be a number). */
    function GetInternal(): (adapter: Option<nat>)
      ensures adapter.None?
    {
      None
    }

    // Crypto state.

    /** `IsActive()`: both RTP sessions exist. */
    function IsActive(): (b: bool)
      reads this
      ensures b <==> sendSession.Some? && recvSession.Some?
    {
      Active(State())
    }

    method SetRtpParams(sendCs: int, sendKey: seq<Byte>, recvCs: int, recvKey: seq<Byte>,
                        sendOutcome: KeyingOutcome, recvOutcome: KeyingOutcome) returns (ok: bool)
      requires Valid()
      modifies this
      ensures Valid()
      ensures State() == AfterSetRtpParams(old(State()), sendCs, sendKey, recvCs, recvKey,
                                           sendOutcome, recvOutcome)
      ensures ok <==> IsActive()
    {
      var send := NewSession(sendCs, sendKey, sendEncryptedHeaderExtensionIds,
                             externalAuthEnabled, sendOutcome);
      var recv := NewSession(recvCs, recvKey, recvEncryptedHeaderExtensionIds, false, recvOutcome);
      if send.None? || recv.None? {
        ResetParams();
        return false;
      }
      sendSession, recvSession := send, recv;
      ok := true;
    }

    method SetRtcpParams(sendCs: int, sendKey: seq<Byte>, recvCs: int, recvKey: seq<Byte>,
                         sendOutcome: KeyingOutcome, recvOutcome: KeyingOutcome) returns (ok: bool)
      requires Valid()
      modifies this
      ensures Valid()
      ensures State() == AfterSetRtcpParams(old(State()), sendCs, sendKey, recvCs, recvKey,
                                            sendOutcome, recvOutcome)
      ensures ok <==> sendRtcpSession.Some?
    {
      var send := NewSession(sendCs, sendKey, [], false, sendOutcome);
      var recv := NewSession(recvCs, recvKey, [], false, recvOutcome);
      if send.None? || recv.None? {
        sendRtcpSession, recvRtcpSession := None, None;
        return false;
      }
      sendRtcpSession, recvRtcpSession := send, recv;
      ok := true;
    }

    method ResetParams()
      modifies this
      ensures Valid() && !IsActive()
      ensures State() == AfterResetParams(old(State()))
    {
      sendSession, recvSession, sendRtcpSession, recvRtcpSession := None, None, None, None;
    }

    method SetEncryptedHeaderExtensionIds(source: ContentSource, extensionIds: seq<int>)
      requires Valid()
      modifies this
      ensures Valid()
      ensures State() == AfterSetEncryptedHeaderExtensionIds(old(State()), source, extensionIds)
    {
      if source == Local {
        recvEncryptedHeaderExtensionIds := extensionIds;
      } else {
        sendEncryptedHeaderExtensionIds := extensionIds;
      }
    }

    /** Only valid before the RTP params have been set. */
    method EnableExternalAuth()
      requires Valid() && !IsActive()
      modifies this
      ensures Valid() && IsExternalAuthEnabled()
      ensures State() == AfterEnableExternalAuth(old(State()))
    {
      externalAuthEnabled := true;
    }

    function IsExternalAuthEnabled(): (b: bool)
      reads this
      ensures b == State().externalAuthEnabled
    {
      externalAuthEnabled
    }

    /** True only once the RTP params are set, external auth was enabled
        and the send suite is not GCM. */
    function IsExternalAuthActive(): (b: bool)
      requires Valid()
      reads this
      ensures b ==> IsActive() && externalAuthEnabled
                    && !IsGcmCryptoSuite(sendSession.value.cryptoSuite)
    {
      ExternalAuthActive(State())
    }

    /** `GetSrtpOverhead(int*)`: fails while the transport is not active. */
    method GetSrtpOverhead() returns (ok: bool, overhead: nat)
      ensures ok <==> IsActive()
      ensures ok ==> Some(overhead) == SrtpOverhead(State())
    {
      if !IsActive() {
        return false, 0;
      }
      return true, sendSession.value.rtpAuthTagLen;
    }

    method CacheRtpAbsSendTimeHeaderExtension(rtpAbsSendTimeExtnId: int)
      modifies this
      ensures State() == old(State()).(rtpAbsSendTimeExtnId := rtpAbsSendTimeExtnId)
    {
      this.rtpAbsSendTimeExtnId := rtpAbsSendTimeExtnId;
    }

    // Protect and unprotect work in place on a caller buffer of maxLen
    // (or inLen) bytes. `sealed` is what libsrtp turns the packet into
    // (None when it reports an error); `recovered` is the packet libsrtp
    // recovers (None when the tag does not verify).

    method ProtectRtp(data: array<Byte>, inLen: nat, maxLen: nat, sealed: Option<seq<Byte>>)
      returns (ok: bool, outLen: nat)
      requires inLen <= data.Length && maxLen <= data.Length
      requires ProtectRtpLength(State(), inLen, maxLen).Some? && sealed.Some? ==>
                 |sealed.value| == ProtectRtpLength(State(), inLen, maxLen).value
      modifies data
      ensures ok <==> ProtectRtpLength(State(), inLen, maxLen).Some? && sealed.Some?
      ensures ok ==> Some(outLen) == ProtectRtpLength(State(), inLen, maxLen)
                     && inLen <= outLen <= maxLen
                     && data[..outLen] == sealed.value && data[outLen..] == old(data[outLen..])
      ensures !ok ==> data[..] == old(data[..])
    {
      if !IsActive() {
        return false, 0;
      }
      var need := inLen + sendSession.value.rtpAuthTagLen;
      ok, outLen := WriteBack(data, if maxLen < need then None else Some(need), sealed);
    }

    /** The overload that also reports the SRTP packet index libsrtp used. */
    method ProtectRtpWithIndex(data: array<Byte>, inLen: nat, maxLen: nat,
                               sealed: Option<seq<Byte>>, packetIndex: int)
      returns (ok: bool, outLen: nat, index: int)
      requires inLen <= data.Length && maxLen <= data.Length
      requires ProtectRtpLength(State(), inLen, maxLen).Some? && sealed.Some? ==>
                 |sealed.value| == ProtectRtpLength(State(), inLen, maxLen).value
      modifies data
      ensures ok <==> ProtectRtpLength(State(), inLen, maxLen).Some? && sealed.Some?
      ensures ok ==> Some(outLen) == ProtectRtpLength(State(), inLen, maxLen)
                     && inLen <= outLen <= maxLen && index == packetIndex
                     && data[..outLen] == sealed.value && data[outLen..] == old(data[outLen..])
      ensures !ok ==> data[..] == old(data[..])
    {
      ok, outLen := ProtectRtp(data, inLen, maxLen, sealed);
      index := if ok then packetIndex else 0;
    }

    method ProtectRtcp(data: array<Byte>, inLen: nat, maxLen: nat, sealed: Option<seq<Byte>>)
      returns (ok: bool, outLen: nat)
      requires inLen <= data.Length && maxLen <= data.Length
      requires ProtectRtcpLength(State(), inLen, maxLen).Some? && sealed.Some? ==>
                 |sealed.value| == ProtectRtcpLength(State(), inLen, maxLen).value
      modifies data
      ensures ok <==> ProtectRtcpLength(State(), inLen, maxLen).Some? && sealed.Some?
      ensures ok ==> Some(outLen) == ProtectRtcpLength(State(), inLen, maxLen)
                     && inLen < outLen <= maxLen
                     && data[..outLen] == sealed.value && data[outLen..] == old(data[outLen..])
      ensures !ok ==> data[..] == old(data[..])
    {
      if !IsActive() {
        return false, 0;
      }
      var session := if sendRtcpSession.Some? then sendRtcpSession.value else sendSession.value;
      var need := inLen + SrtcpIndexLen + session.rtcpAuthTagLen;
      ok, outLen := WriteBack(data, if maxLen < need then None else Some(need), sealed);
    }

    method UnprotectRtp(data: array<Byte>, inLen: nat, recovered: Option<seq<Byte>>)
      returns (ok: bool, outLen: nat)
      requires inLen <= data.Length
      requires UnprotectRtpLength(State(), inLen, true).Some? && recovered.Some? ==>
                 |recovered.value| == UnprotectRtpLength(State(), inLen, true).value
      modifies data
      ensures ok <==> UnprotectRtpLength(State(), inLen, recovered.Some?).Some?
      ensures ok ==> Some(outLen) == UnprotectRtpLength(State(), inLen, true) && outLen <= inLen
                     && data[..outLen] == recovered.value && data[outLen..] == old(data[outLen..])
      ensures !ok ==> data[..] == old(data[..])
    {
      if !IsActive() {
        return false, 0;
      }
      var tag := recvSession.value.rtpAuthTagLen;
      ok, outLen := WriteBack(data, if inLen < tag then None else Some(inLen - tag), recovered);
    }

    method UnprotectRtcp(data: array<Byte>, inLen: nat, recovered: Option<seq<Byte>>)
      returns (ok: bool, outLen: nat)
      requires inLen <= data.Length
      requires UnprotectRtcpLength(State(), inLen, true).Some? && recovered.Some? ==>
                 |recovered.value| == UnprotectRtcpLength(State(), inLen, true).value
      modifies data
      ensures ok <==> UnprotectRtcpLength(State(), inLen, recovered.Some?).Some?
      ensures ok ==> Some(outLen) == UnprotectRtcpLength(State(), inLen, true) && outLen < inLen
                     && data[..outLen] == recovered.value && data[outLen..] == old(data[outLen..])
      ensures !ok ==> data[..] == old(data[..])
    {
      if !IsActive() {
        return false, 0;
      }
      var session := if recvRtcpSession.Some? then recvRtcpSession.value else recvSession.value;
      var trailer := SrtcpIndexLen + session.rtcpAuthTagLen;
      ok, outLen := WriteBack(data, if inLen < trailer then None else Some(inLen - trailer), recovered);
    }
  }
}
