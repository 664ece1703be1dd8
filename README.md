# SRTP transport bookkeeping, CoreFoundation ownership and VoiceEngine ids

A Dafny model of three parts of the WebRTC tree:

- `webrtc::SrtpTransport` (`pc/srtptransport.h`): an RTP transport that wraps
  another one and protects/unprotects RTP and RTCP packets with SRTP
  (RFC 3711, with per-extension header encryption from RFC 6904). The model
  (`srtp_transport.dfy`, module `SrtpTransports`) keeps the four optional
  sessions (send/recv RTP, send/recv RTCP), the two staged lists of
  header-extension ids to encrypt, the external-auth flag and the cached
  abs-send-time extension id. The behaviour is first stated on values
  (`SrtpState` and one function per operation) with the properties proved
  as lemmas. The class `SrtpTransport` then holds the same state in
  fields, and each of its methods is proved to move `State()` exactly as
  the matching function says. A session is an abstract value: crypto
  suite, key, the header-extension ids captured when it was created,
  whether external auth is in use, and its tag lengths. Whatever libsrtp
  answers is a parameter of the operation that asks it: whether a key is
  accepted (with the suite's tag lengths), the bytes a protected packet
  becomes, and whether an incoming tag verifies.
- `rtc::ScopedCFTypeRef<T>` (`sdk/objc/.../scoped_cftyperef.h`): a
  single-slot owner of a CoreFoundation object. CFRetain and CFRelease are
  ghost operations on a ghost map of retain counts (`CFRuntime`), and
  every operation the class declares is proved to move those counts
  exactly as the source does. The copy constructor the compiler generates
  for it, which retains nothing, is the subject of the finding below; the
  model's own copy constructor retains. A value-level `World` (held pointer plus counts) gives
  each operation a specification function. The lemmas on these functions
  state the ownership accounting: RETAIN moves no reference between the
  wrapper and anyone else; ASSUME takes over one reference; `release()`
  hands one back. A wrapper that is only ever reset with RETAIN, each time
  to an object someone else owns, and is then destroyed leaves every count
  as it found it. CFRetain, like CFRelease, may only be applied to an
  object that is still alive (its count is at least one): retaining a
  freed object is a use after free, and the model does not allow it.
- `voice_engine_defines.h` (module `VoiceEngineDefines`): the volume and
  minimum-playout-delay ranges, and `VoEId`, which packs an engine id and
  a channel id into one 32-bit int. Channel `-1` is packed as the dummy
  channel 99. The model requires that neither `veId << 16` nor the sum
  overflows a 32-bit int, because signed overflow is undefined in C++, and
  that `veId` is not negative, because shifting a negative int left is
  undefined as well. It
  proves the round trip through the upper and lower 16 bits, the
  injectivity that follows from it, and the aliasing of the sentinel with
  channel 99.

Only the header of `SrtpTransport` is available; its implementation file
(`pc/srtptransport.cc`) and `cricket::SrtpSession` are not part of this
model. Where the header leaves behaviour open, the model makes these choices:

- A successful `SetRtpParams` replaces the RTP pair and leaves the RTCP
  pair alone. A rejected key resets the transport as `ResetParams` does:
  no session of either kind is left, so the only way back from active is a
  full reset. A successful `SetRtcpParams` replaces the RTCP pair; a
  rejected RTCP key leaves no RTCP session and the RTP pair untouched. A
  successful RTP rekey and an RTCP rekey therefore commute.
- The send RTP session captures the ids staged for sending, and uses
  external auth when it is enabled and its suite is not AES-GCM. The recv
  RTP session captures the ids staged for receiving. RTCP sessions capture
  no ids and never use external auth.
- `SetEncryptedHeaderExtensionIds(CS_LOCAL, ids)` stages the ids for the
  receive direction, and `CS_REMOTE` stages them for the send direction.
  This follows WebRTC's convention that the local description describes
  what this endpoint receives.
- Protect and unprotect fail while the transport is not active.
  `ProtectRtcp` and `UnprotectRtcp` go through the RTCP sessions when they
  exist. Otherwise they go through the RTP sessions, which covers RTCP
  muxed onto RTP. As a result, RTCP is not refused just because
  `SetRtcpParams` has not been called yet.
- Protecting needs room for the tag: RTP needs `in_len + tag` bytes and
  RTCP needs `in_len + 4 + tag` bytes, the 4 being the SRTCP index word of
  section 3.4 of RFC 3711. A failed call leaves the buffer as it was.
- `IsExternalAuthActive` returns false while the transport is not active.
- The crypto-suite ids (1 and 2 for AES-CM, 7 and 8 for AES-GCM) are those
  of section 4.1.2 of RFC 5764 and section 14.2 of RFC 7714.

## Model

| member | source | states |
|---|---|---|
| `SrtpTransports.Initial` | deps/webrtc/include/pc/srtptransport.h:184-193 | a new transport has no session, so it is not active; external auth is off and the abs-send-time id is -1 |
| `SrtpTransports.AfterSetRtpParams` | deps/webrtc/include/pc/srtptransport.h:96-104 | the transport is active afterwards exactly when both keys are accepted; when it is, the RTCP pair is unchanged, and when it is not, no RTCP session is left either; the staged ids, the external-auth flag and the abs-send-time id are unchanged; the pairing invariant is kept |
| `SrtpTransports.AfterSetRtcpParams` | deps/webrtc/include/pc/srtptransport.h:106-114 | an RTCP pair exists afterwards exactly when both keys are accepted; the RTP pair and therefore `IsActive` are unchanged, and so is every other field (the new sessions' contents: `SetRtcpParamsInstallsRequestedSessions`) |
| `SrtpTransports.AfterResetParams` | deps/webrtc/include/pc/srtptransport.h:116 | all four sessions are gone and the transport is inactive; staged ids, external-auth flag and abs-send-time id survive |
| `SrtpTransports.AfterSetEncryptedHeaderExtensionIds` | deps/webrtc/include/pc/srtptransport.h:118-122 | the list of the given source's direction is replaced by `ids`; the other list and all four sessions are unchanged |
| `SrtpTransports.AfterEnableExternalAuth` | deps/webrtc/include/pc/srtptransport.h:124-130 | allowed only while not active; afterwards external auth is enabled, the transport is still inactive and nothing else changes |
| `SrtpTransports.ExternalAuthActive` | deps/webrtc/include/pc/srtptransport.h:124-135 | true only when the transport is active, external auth was enabled and the send suite is not AES-GCM |
| `SrtpTransports.SrtpOverhead` | deps/webrtc/include/pc/srtptransport.h:137-138 | the overhead is reported exactly when the transport is active |
| `SrtpTransports.ProtectRtpLength` | deps/webrtc/include/pc/srtptransport.h:165 | a successful RTP protect needs an active transport and reports `in_len <= out_len <= max_len` |
| `SrtpTransports.ProtectRtcpLength` | deps/webrtc/include/pc/srtptransport.h:173 | a successful RTCP protect needs an active transport and reports `in_len + 4 <= out_len <= max_len` |
| `SrtpTransports.UnprotectRtpLength` | deps/webrtc/include/pc/srtptransport.h:175-177 | a successful RTP unprotect needs an active transport and an authentic tag, and reports `out_len <= in_len` |
| `SrtpTransports.UnprotectRtcpLength` | deps/webrtc/include/pc/srtptransport.h:175-179 | a successful RTCP unprotect needs an active transport and an authentic tag, and reports `out_len + 4 <= in_len` |
| `SrtpTransports.ActiveIgnoresRtcpSessions` | deps/webrtc/include/pc/srtptransport.h:73-75 | whatever the RTCP sessions are, `IsActive` is the same |
| `SrtpTransports.RtpAndRtcpRekeyCommute` | deps/webrtc/include/pc/srtptransport.h:96-114 | with both RTP keys accepted, setting RTP params then RTCP params gives the same transport as the other order |
| `SrtpTransports.RejectedRtpKeyingResetsAllSessions` | deps/webrtc/include/pc/srtptransport.h:96-116 | a `SetRtpParams` whose send or recv key is rejected leaves exactly the state `ResetParams` would: no session of either kind, everything else kept |
| `SrtpTransports.SetRtcpParamsInstallsRequestedSessions` | deps/webrtc/include/pc/srtptransport.h:106-114 | after a successful `SetRtcpParams` both RTCP sessions exist and carry the requested suites and keys and libsrtp's tag lengths, whatever pair was there before; they capture no header-extension ids and do not use external auth |
| `SrtpTransports.SetRtpParamsCapturesStagedIds` | deps/webrtc/include/pc/srtptransport.h:96-122 | after a successful `SetRtpParams` both sessions carry the requested suites and keys, libsrtp's tag lengths and the ids staged at that moment; the send session uses external auth exactly when it is enabled and the send suite is not AES-GCM, the recv session never does |
| `SrtpTransports.ExternalAuthAndOverheadAfterSetRtpParams` | deps/webrtc/include/pc/srtptransport.h:124-138 | from any state, first keying or rekey: external auth is active afterwards exactly when both keys are accepted, it is enabled and the send suite is not AES-GCM; `GetSrtpOverhead` then reports the send suite's RTP tag length, and fails after a rejected key |
| `SrtpTransports.StagedIdsTakeEffectAtNextSetRtpParams` | deps/webrtc/include/pc/srtptransport.h:118-122 | staging ids leaves both RTP sessions as they were; the next successful `SetRtpParams` builds the matching session with exactly those ids |
| `SrtpTransports.ExternalAuthActiveAfterEnable` | deps/webrtc/include/pc/srtptransport.h:124-135 | enabling external auth before keying makes it active exactly when both keys are accepted and the send suite is not AES-GCM |
| `SrtpTransports.ExternalAuthInactiveUnlessEnabled` | deps/webrtc/include/pc/srtptransport.h:124-135 | without `EnableExternalAuth`, `SetRtpParams` never makes external auth active |
| `SrtpTransports.ProtectRtpGrowsByOverhead` | deps/webrtc/include/pc/srtptransport.h:137-165 | a successful RTP protect grows the packet by exactly the overhead `GetSrtpOverhead` reports |
| `SrtpTransports.RtpLengthRoundTrip` | deps/webrtc/include/pc/srtptransport.h:165-177 | a peer whose recv session uses the same tag length unprotects an RTP packet back to its original length |
| `SrtpTransports.RtcpLengthRoundTrip` | deps/webrtc/include/pc/srtptransport.h:173-179 | the same for RTCP, tag and SRTCP index word included |
| `SrtpTransports.InactiveTransportProtectsNothing` | deps/webrtc/include/pc/srtptransport.h:165-179 | before the RTP params are set, all four protect/unprotect operations fail, whether RTCP sessions exist or not |
| `SrtpTransports.RtcpUsesRtcpSessionsWhenSet` | deps/webrtc/include/pc/srtptransport.h:173-187 | once RTCP sessions exist, the RTCP protect length is governed by the RTCP session's tag |
| `SrtpTransports.SrtpTransport.WithRtcpMux` | deps/webrtc/include/pc/srtptransport.h:29 | wraps a new RTP transport with the given RTCP-mux setting; starts in the initial state |
| `SrtpTransports.SrtpTransport.Wrap` | deps/webrtc/include/pc/srtptransport.h:31-32 | wraps the given transport; starts in the initial state |
| `SrtpTransports.SrtpTransport.SetRtcpMuxEnabled` | deps/webrtc/include/pc/srtptransport.h:34-36 | forwards to the wrapped transport; no crypto state changes |
| `SrtpTransports.SrtpTransport.RtpPacketTransport` | deps/webrtc/include/pc/srtptransport.h:38-48 | returns the wrapped transport's RTP packet transport |
| `SrtpTransports.SrtpTransport.SetRtpPacketTransport` | deps/webrtc/include/pc/srtptransport.h:42-44 | forwards to the wrapped transport; its other settings and all crypto state are unchanged |
| `SrtpTransports.SrtpTransport.RtcpPacketTransport` | deps/webrtc/include/pc/srtptransport.h:50-59 | returns the wrapped transport's RTCP packet transport |
| `SrtpTransports.SrtpTransport.SetRtcpPacketTransport` | deps/webrtc/include/pc/srtptransport.h:53-55 | forwards to the wrapped transport; its other settings and all crypto state are unchanged |
| `SrtpTransports.SrtpTransport.IsWritable` | deps/webrtc/include/pc/srtptransport.h:69-71 | the wrapped transport's answer |
| `SrtpTransports.SrtpTransport.HandlesPayloadType` | deps/webrtc/include/pc/srtptransport.h:77-79 | true exactly for payload types the wrapped transport handles |
| `SrtpTransports.SrtpTransport.AddHandledPayloadType` | deps/webrtc/include/pc/srtptransport.h:81-83 | the wrapped transport handles the payload type afterwards; its other settings, its packet transports and all crypto state are unchanged |
| `SrtpTransports.SrtpTransport.SetParameters` | deps/webrtc/include/pc/srtptransport.h:85-87 | forwards to the wrapped transport and returns its result; its other settings, its packet transports and all crypto state are unchanged |
| `SrtpTransports.SrtpTransport.GetParameters` | deps/webrtc/include/pc/srtptransport.h:89-91 | the wrapped transport's parameters |
| `SrtpTransports.SrtpTransport.GetInternal` | deps/webrtc/include/pc/srtptransport.h:94 | always null |
| `SrtpTransports.SrtpTransport.IsActive` | deps/webrtc/include/pc/srtptransport.h:73-75 | true exactly when the send and recv RTP sessions both exist |
| `SrtpTransports.SrtpTransport.SetRtpParams` | deps/webrtc/include/pc/srtptransport.h:96-104 | the new state is `AfterSetRtpParams` of the old one; returns whether the transport is now active |
| `SrtpTransports.SrtpTransport.SetRtcpParams` | deps/webrtc/include/pc/srtptransport.h:106-114 | the new state is `AfterSetRtcpParams` of the old one; returns whether an RTCP pair now exists |
| `SrtpTransports.SrtpTransport.ResetParams` | deps/webrtc/include/pc/srtptransport.h:116 | the new state is `AfterResetParams` of the old one |
| `SrtpTransports.SrtpTransport.SetEncryptedHeaderExtensionIds` | deps/webrtc/include/pc/srtptransport.h:118-122 | the new state is `AfterSetEncryptedHeaderExtensionIds` of the old one |
| `SrtpTransports.SrtpTransport.EnableExternalAuth` | deps/webrtc/include/pc/srtptransport.h:124-129 | only while not active; afterwards `IsExternalAuthEnabled()` holds, and the new state is `AfterEnableExternalAuth` of the old one |
| `SrtpTransports.SrtpTransport.IsExternalAuthEnabled` | deps/webrtc/include/pc/srtptransport.h:130 | the external-auth flag |
| `SrtpTransports.SrtpTransport.IsExternalAuthActive` | deps/webrtc/include/pc/srtptransport.h:132-135 | true only when active, enabled and the send suite is not AES-GCM |
| `SrtpTransports.SrtpTransport.GetSrtpOverhead` | deps/webrtc/include/pc/srtptransport.h:137-138 | succeeds exactly when active, reporting the send session's RTP tag length |
| `SrtpTransports.SrtpTransport.CacheRtpAbsSendTimeHeaderExtension` | deps/webrtc/include/pc/srtptransport.h:143-147 | sets the abs-send-time id and nothing else |
| `SrtpTransports.SrtpTransport.ProtectRtp` | deps/webrtc/include/pc/srtptransport.h:165 | succeeds exactly when `ProtectRtpLength` does and libsrtp produces a packet; then `in_len <= out_len <= max_len`, the buffer holds the protected packet and the rest of it is untouched; on failure the buffer is unchanged |
| `SrtpTransports.SrtpTransport.ProtectRtpWithIndex` | deps/webrtc/include/pc/srtptransport.h:167-172 | as `ProtectRtp`, also reporting libsrtp's packet index |
| `SrtpTransports.SrtpTransport.ProtectRtcp` | deps/webrtc/include/pc/srtptransport.h:173 | as `ProtectRtp`, for `ProtectRtcpLength`: `in_len < out_len <= max_len` |
| `SrtpTransports.SrtpTransport.UnprotectRtp` | deps/webrtc/include/pc/srtptransport.h:175-177 | succeeds exactly when `UnprotectRtpLength` does, with `out_len <= in_len`; the buffer holds the recovered packet; on failure it is unchanged |
| `SrtpTransports.SrtpTransport.UnprotectRtcp` | deps/webrtc/include/pc/srtptransport.h:179 | as `UnprotectRtp`, for `UnprotectRtcpLength`: `out_len < in_len` |
| `CoreFoundation.AfterConstruct` | deps/webrtc/include/sdk/objc/Framework/Classes/Common/scoped_cftyperef.h:27-32 | holds `ptr`; under RETAIN `ptr` must be null or alive; only a non-null `ptr` under RETAIN gains one count, and no other count moves; the held object is alive under RETAIN, or under ASSUME when the caller owned a reference |
| `CoreFoundation.AfterReset` | deps/webrtc/include/sdk/objc/Framework/Classes/Common/scoped_cftyperef.h:65-71 | holds `p`; under RETAIN `p` must be null or alive; every count changes by +1 for a non-null `p` under RETAIN and by -1 for the old non-null object, and by nothing else; the held object stays alive under RETAIN, or under ASSUME when the caller owned a reference |
| `CoreFoundation.AfterAssign` | deps/webrtc/include/sdk/objc/Framework/Classes/Common/scoped_cftyperef.h:46-51 | holds `rhs`; only the old non-null object loses one count |
| `CoreFoundation.AfterRelease` | deps/webrtc/include/sdk/objc/Framework/Classes/Common/scoped_cftyperef.h:73-77 | holds null and no count moves |
| `CoreFoundation.AfterDestroy` | deps/webrtc/include/sdk/objc/Framework/Classes/Common/scoped_cftyperef.h:34-38 | what is left of each count is exactly the references others own: the held non-null object loses one |
| `CoreFoundation.AssignIsResetAssume` | deps/webrtc/include/sdk/objc/Framework/Classes/Common/scoped_cftyperef.h:46-71 | `operator=(const T&)` behaves as `reset(rhs)` with the default ASSUME policy |
| `CoreFoundation.ResetToHeldWithRetainIsNoOp` | deps/webrtc/include/sdk/objc/Framework/Classes/Common/scoped_cftyperef.h:65-70 | `reset(p, RETAIN)` with `p` the held non-null object changes nothing, because the retain comes before the release |
| `CoreFoundation.ResetRetainKeepsExternalRefs` | deps/webrtc/include/sdk/objc/Framework/Classes/Common/scoped_cftyperef.h:21-22 | RETAIN to a live object leaves everybody else's references to every object as they were |
| `CoreFoundation.ResetAssumeTakesOverOneRef` | deps/webrtc/include/sdk/objc/Framework/Classes/Common/scoped_cftyperef.h:23-24 | ASSUME takes over exactly one of the caller's references to a non-null `p` |
| `CoreFoundation.ReleaseHandsOverRef` | deps/webrtc/include/sdk/objc/Framework/Classes/Common/scoped_cftyperef.h:73-77 | `release()` hands the wrapper's reference to the caller |
| `CoreFoundation.ResetRetainingAll` | deps/webrtc/include/sdk/objc/Framework/Classes/Common/scoped_cftyperef.h:53-56 | after any sequence of copy-assignments from objects others own a reference to, the wrapper holds the last pointer and that object is alive |
| `CoreFoundation.RetainingResetsKeepExternalRefs` | deps/webrtc/include/sdk/objc/Framework/Classes/Common/scoped_cftyperef.h:53-71 | any sequence of RETAIN resets to objects others own a reference to leaves everybody else's references as they were |
| `CoreFoundation.RetainingScopeIsBalanced` | deps/webrtc/include/sdk/objc/Framework/Classes/Common/scoped_cftyperef.h:27-71 | an empty wrapper reset with RETAIN any number of times, each time to a live object, and then destroyed leaves every retain count as it found it |
| `CoreFoundation.ImplicitCopyOverReleases` | deps/webrtc/include/sdk/objc/Framework/Classes/Common/scoped_cftyperef.h:27-38 | as written (no copy constructor declared, so the generated one copies `ptr_` without retaining): when the original held the only reference, destroying it leaves the copy holding an object whose count is zero, which the copy's destructor would release again |
| `CoreFoundation.AfterCopyConstruct` | deps/webrtc/include/sdk/objc/Framework/Classes/Common/scoped_cftyperef.h:27-38 | a retaining copy holds the same pointer and owns a reference of its own: each object's references other than the copy's are exactly the original's count, and both wrappers' objects are alive |
| `CoreFoundation.CopyThenDestroyBothIsBalanced` | deps/webrtc/include/sdk/objc/Framework/Classes/Common/scoped_cftyperef.h:27-38 | with the retaining copy, destroying the copy and then the original leaves every object with exactly the references other owners held before the copy |
| `CoreFoundation.ScopedCFTypeRef.constructor` | deps/webrtc/include/sdk/objc/Framework/Classes/Common/scoped_cftyperef.h:27 | holds null |
| `CoreFoundation.ScopedCFTypeRef.Wrap` | deps/webrtc/include/sdk/objc/Framework/Classes/Common/scoped_cftyperef.h:28 | holds `ptr` and retains nothing; when the caller owned a reference to `ptr` (ASSUME) the wrapper's object is alive |
| `CoreFoundation.ScopedCFTypeRef.WithPolicy` | deps/webrtc/include/sdk/objc/Framework/Classes/Common/scoped_cftyperef.h:29-32 | under RETAIN `ptr` must be null or alive; the new wrapper and the counts are `AfterConstruct`: a non-null `ptr` is retained exactly once under RETAIN, and nothing moves under ASSUME; the wrapper's object is alive |
| `CoreFoundation.ScopedCFTypeRef.Copy` | deps/webrtc/include/sdk/objc/Framework/Classes/Common/scoped_cftyperef.h:27-38 | the retaining copy constructor: holds the original's pointer, the counts move as `AfterCopyConstruct`, and both wrappers' objects are alive |
| `CoreFoundation.ScopedCFTypeRef.Destroy` | deps/webrtc/include/sdk/objc/Framework/Classes/Common/scoped_cftyperef.h:34-38 | the counts become `AfterDestroy`: one release of a non-null held object, nothing otherwise |
| `CoreFoundation.ScopedCFTypeRef.Get` | deps/webrtc/include/sdk/objc/Framework/Classes/Common/scoped_cftyperef.h:40-41 | the held pointer |
| `CoreFoundation.ScopedCFTypeRef.IsSet` | deps/webrtc/include/sdk/objc/Framework/Classes/Common/scoped_cftyperef.h:42 | true exactly when the held pointer is non-null |
| `CoreFoundation.ScopedCFTypeRef.IsUnset` | deps/webrtc/include/sdk/objc/Framework/Classes/Common/scoped_cftyperef.h:44 | the negation of `operator bool` |
| `CoreFoundation.ScopedCFTypeRef.Assign` | deps/webrtc/include/sdk/objc/Framework/Classes/Common/scoped_cftyperef.h:46-51 | wrapper and counts move as `AfterAssign`: release the old object, adopt `rhs` unretained |
| `CoreFoundation.ScopedCFTypeRef.CopyAssign` | deps/webrtc/include/sdk/objc/Framework/Classes/Common/scoped_cftyperef.h:53-56 | wrapper and counts move as `AfterReset(rhs.get(), RETAIN)`; both wrappers then hold the same pointer and both objects stay alive |
| `CoreFoundation.ScopedCFTypeRef.InitializeInto` | deps/webrtc/include/sdk/objc/Framework/Classes/Common/scoped_cftyperef.h:60-63 | requires an empty wrapper; afterwards it holds what the initializer stored and no count moves |
| `CoreFoundation.ScopedCFTypeRef.Reset` | deps/webrtc/include/sdk/objc/Framework/Classes/Common/scoped_cftyperef.h:65-71 | under RETAIN `p` must be null or alive; wrapper and counts move as `AfterReset`; the default policy is ASSUME; the wrapper's object stays alive |
| `CoreFoundation.ScopedCFTypeRef.Release` | deps/webrtc/include/sdk/objc/Framework/Classes/Common/scoped_cftyperef.h:73-77 | returns the held pointer and leaves the wrapper null; the counts are not touched |
| `CoreFoundation.AdoptCF` | deps/webrtc/include/sdk/objc/Framework/Classes/Common/scoped_cftyperef.h:83-86 | `cftype` must be null or alive; a new wrapper built with RETAIN, whose object is alive |
| `CoreFoundation.ScopedCF` | deps/webrtc/include/sdk/objc/Framework/Classes/Common/scoped_cftyperef.h:88-91 | a new wrapper holding `cftype`, not retained; alive when the caller owned a reference to `cftype` |
| `VoiceEngineDefines.VolumeLevelRange` | deps/webrtc/include/voice_engine/voice_engine_defines.h:24-25 | `kMinVolumeLevel == 0 <= kMaxVolumeLevel == 255` |
| `VoiceEngineDefines.MinPlayoutDelayRange` | deps/webrtc/include/voice_engine/voice_engine_defines.h:44-46 | `0 == kVoiceEngineMinMinPlayoutDelayMs <= kVoiceEngineMaxMinPlayoutDelayMs == 10000` |
| `VoiceEngineDefines.ShiftLeft16` | deps/webrtc/include/voice_engine/voice_engine_defines.h:55 | `veId << 16` of a shiftable id is non-negative, leaves room for a 16-bit channel below the int32 maximum, and has its low 16 bits clear |
| `VoiceEngineDefines.VoEId` | deps/webrtc/include/voice_engine/voice_engine_defines.h:52-58 | the packed id is a 32-bit int, non-negative for the sentinel and for channels in 0..65535 |
| `VoiceEngineDefines.VoEIdNoChannel` | deps/webrtc/include/voice_engine/voice_engine_defines.h:52-56 | `VoEId(v, -1) == v * 65536 + 99` |
| `VoiceEngineDefines.VoEIdChannel` | deps/webrtc/include/voice_engine/voice_engine_defines.h:57 | for `c != -1`, `VoEId(v, c) == v * 65536 + c` |
| `VoiceEngineDefines.VoEIdSentinelAliasesDummyChannel` | deps/webrtc/include/voice_engine/voice_engine_defines.h:53-57 | `VoEId(v, -1) == VoEId(v, 99)` |
| `VoiceEngineDefines.VoEIdRoundTrip` | deps/webrtc/include/voice_engine/voice_engine_defines.h:52-58 | for `0 <= c < 65536`, the upper half of `VoEId(v, c)` is `v` and the lower 16 bits are `c` |
| `VoiceEngineDefines.VoEIdInjective` | deps/webrtc/include/voice_engine/voice_engine_defines.h:52-58 | distinct (engine, channel) pairs with channels in 0..65535 give distinct ids |

## Left out

- The SRTP cryptography (AES-CM/HMAC-SHA1, AES-GCM of RFC 7714) lives in
  libsrtp behind `cricket::SrtpSession`, which is foreign code. The keying
  verdict, the protected bytes and the tag check are parameters, so the
  round trip of packet contents, overhead per suite, and tamper detection
  are not modelled. Only lengths round-trip.
- `SendRtpPacket`, `SendRtcpPacket`, `SendPacket`, `OnPacketReceived`,
  `OnReadyToSend`/`SignalReadyToSend` and `ConnectToRtpTransport` are left
  out: they deliver packets and wire signals between collaborators that
  are not part of this model.
- `GetRtpAuthParams` is left out: it returns raw key pointers from inside
  libsrtp's context.
- `CreateSrtpSessions` is folded into `SetRtpParams`.
- `content_name_` is kept but never read; logging is left out.
- `RtpTransportInternal` is not part of this model. The stand-in class
  records what it is given, and answers `IsWritable` from the packet
  transport RTP or RTCP goes over.
- `SrtpTransports.SrtpTransport.SetParameters`: the stand-in always
  accepts, so the model only promises that the wrapped transport's result
  is returned. The real transport's validation is not captured.
- `SrtpTransports.SrtpTransport.RtpPacketTransport`: `GetRtpPacketTransport`
  and `GetRtcpPacketTransport` return the same packet transports as
  `rtp_packet_transport` and `rtcp_packet_transport`, through another
  interface type. They are modelled by the same two functions.
- The unique ownership of `rtp_transport_` and of the sessions (C++
  `unique_ptr`) is not modelled. Sessions are values; the wrapped
  transport is a shared object reference.
- The sequence checker and single-owner threading discipline are left out:
  the model is sequential.
- `ScopedCFTypeRef<T>` is modelled for one erased pointer type.
  `operator->` is the same as `get()`. `InitializeInto()` returns the
  address of the slot; the model takes the value the initializer stores
  there instead.
- `CoreFoundation.ScopedCFTypeRef.Destroy`: after destruction the model
  promises nothing about the slot, because the C++ object no longer
  exists.
- The wrapper invariant (`Valid`) says that the one wrapper's object is
  alive. A global invariant tying the counts to all wrappers at once is not
  stated.
- `VoiceEngineDefines.VoEId` is defined only for `0 <= veId < 32768` and
  where the addition stays inside a 32-bit int. Signed overflow is
  undefined in C++, and so is shifting a negative int left: `VoEId(-1, 0)`
  is therefore outside the model. Results for out-of-range ids are not
  modelled.
- The platform-dependent constants of `voice_engine_defines.h`
  (`kDefaultNsMode`, `kDefaultAgcMode`, `kDefaultAgcState`,
  `WEBRTC_VOICE_ENGINE_DEFAULT_DEVICE`) are left out: they select values
  of enums defined elsewhere.
- The other files of the tree are test harnesses, factories and
  interfaces declared without bodies, and are not part of this model:
  video processor, media optimization, echo path delay estimator, audio
  state, peer connection wrapper, codec factories, `audio_decoder_impl.h`
  and `simple_app.cc`.

## Findings

| source | as written | input that shows it | evidently intended | confidence | as-written member | corrected member |
|---|---|---|---|---|---|---|
| deps/webrtc/include/sdk/objc/Framework/Classes/Common/scoped_cftyperef.h:27-38 | the class declares a destructor that releases `ptr_` but no copy constructor, so the generated copy constructor copies `ptr_` without `CFRetain`; `AdoptCF` and `ScopedCF` (lines 83-91) return by value and depend on the copy being elided | a wrapper holding the only reference to an object (count 1) is copied; destroying the original brings the count to 0 and the copy's destructor releases the object again | a copy constructor that retains, as the copy-assignment operator at lines 53-56 does | medium, not executed | `CoreFoundation.ImplicitCopyOverReleases` | `CoreFoundation.AfterCopyConstruct` |
