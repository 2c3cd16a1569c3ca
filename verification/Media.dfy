/**
  RTP parameters of a producer. The slices in them are shared: by the producer, by the data
  sent to every consumer's client, and by the requests built from that data.
*/
module Media {
  import opened Basics
  import opened Slices
  import opened Routing

  // Feedback entries.

  datatype Feedback = Feedback(name: string, parameter: string)

  predicate IsRemb(f: Feedback) {
    f.name == "goog-remb"
  }

  function WithoutRemb(s: seq<Feedback>): (r: seq<Feedback>)
    ensures |r| <= |s|
  {
    if s == [] then []
    else WithoutRemb(s[..|s| - 1]) + if IsRemb(s[|s| - 1]) then [] else [s[|s| - 1]]
  }

  /** The kept entries in order, then the original last entry once for each entry dropped. */
  function AfterRemb(s: seq<Feedback>): (r: seq<Feedback>)
    ensures |r| == |s|
  {
    if s == [] then []
    else WithoutRemb(s) + seq(|s| - |WithoutRemb(s)|, _ => s[|s| - 1])
  }

  lemma {:induction false} WithoutRembConcat(a: seq<Feedback>, b: seq<Feedback>)
    ensures WithoutRemb(a + b) == WithoutRemb(a) + WithoutRemb(b)
  {
    if b == [] {
      assert a + b == a;
    } else {
      WithoutRembConcat(a, b[..|b| - 1]);
      assert (a + b)[..|a + b| - 1] == a + b[..|b| - 1];
    }
  }

  lemma {:induction false} WithoutRembMembers(s: seq<Feedback>)
    ensures forall f :: f in WithoutRemb(s) <==> f in s && !IsRemb(f)
    ensures |WithoutRemb(s)| == |s| <==> forall f | f in s :: !IsRemb(f)
  {
    if s != [] {
      WithoutRembMembers(s[..|s| - 1]);
      assert s == s[..|s| - 1] + [s[|s| - 1]];
    }
  }

  lemma {:induction false} AllKept(s: seq<Feedback>)
    requires forall i | 0 <= i < |s| :: !IsRemb(s[i])
    ensures WithoutRemb(s) == s
  {
    if s != [] {
      AllKept(s[..|s| - 1]);
    }
  }

  /** The loop shortens only its own header, so the caller's slice keeps its length. */
  method RemoveFeedbackRemb(feedback: array<Feedback>)
    modifies feedback
    ensures feedback[..] == AfterRemb(old(feedback[..]))
  {
    hide WithoutRemb, RemoveAt, ShiftOut;
    ghost var s := feedback[..];
    assert feedback[..feedback.Length] == s;
    var n, i := feedback.Length, 0;
    while i < n
      invariant 0 <= i <= n <= feedback.Length == |s|
      invariant forall j | 0 <= j < i :: !IsRemb(feedback[j])
      invariant WithoutRemb(feedback[..n]) == WithoutRemb(s)
      invariant i < n ==> feedback[n - 1] == s[|s| - 1]
      invariant forall j | n <= j < |s| :: feedback[j] == s[|s| - 1]
      decreases n - i
    {
      if IsRemb(feedback[i]) {
        ghost var before, tail := feedback[..n], feedback[n..];
        AppendOver(feedback, n, i);
        DropOne(before, i);
        ShiftOutEnds(before, i);
        assert forall j | 0 <= j < n :: feedback[j] == feedback[..n][j];
        assert forall j | n <= j < |s| :: feedback[j] == tail[j - n];
        n := n - 1;
      } else {
        i := i + 1;
      }
    }
    AllKept(feedback[..n]);
    assert feedback[..] == feedback[..n] + feedback[n..];
  }

  /** The place freed at the end keeps the last element, which also moved down by one. */
  lemma ShiftOutEnds(s: seq<Feedback>, i: nat)
    requires i < |s|
    ensures var r := ShiftOut(s, i);
            && r[|s| - 1] == s[|s| - 1]
            && (i < |s| - 1 ==> r[|s| - 2] == s[|s| - 1])
            && forall j | 0 <= j < i :: r[j] == s[j]
  {
  }

  lemma DropOne(s: seq<Feedback>, i: nat)
    requires i < |s| && IsRemb(s[i])
    ensures WithoutRemb(RemoveAt(s, i)) == WithoutRemb(s)
  {
    hide WithoutRemb;
    DropBetween(s[..i], [s[i]], s[i + 1..]);
    assert s == (s[..i] + [s[i]]) + s[i + 1..];
  }

  lemma DropBetween(left: seq<Feedback>, one: seq<Feedback>, right: seq<Feedback>)
    requires |one| == 1 && IsRemb(one[0])
    ensures WithoutRemb((left + one) + right) == WithoutRemb(left + right)
  {
    hide WithoutRemb, IsRemb;
    WithoutRembConcat(left + one, right);
    WithoutRembConcat(left, one);
    WithoutRembConcat(left, right);
    OnlyRemb(one);
    assert WithoutRemb(left) + [] == WithoutRemb(left);
  }

  lemma OnlyRemb(s: seq<Feedback>)
    requires |s| == 1 && IsRemb(s[0])
    ensures WithoutRemb(s) == []
  {
    assert s[..0] == [];
  }

  /** No goog-remb entry is left exactly when the last entry was none. */
  lemma RembGoneUnlessLast(s: seq<Feedback>)
    ensures (exists f | f in AfterRemb(s) :: IsRemb(f)) <==> s != [] && IsRemb(s[|s| - 1])
  {
    WithoutRembMembers(s);
    if s != [] {
      var kept, last := WithoutRemb(s), s[|s| - 1];
      var copies := seq(|s| - |kept|, _ => last);
      assert AfterRemb(s) == kept + copies;
      assert forall f | f in copies :: f == last;
      if IsRemb(last) {
        assert last in s;
        assert copies[0] == last;
        assert last in AfterRemb(s);
      }
    }
  }

  /** Produce cleans the feedback slice of every codec. */
  method RemoveRembFromCodecs(codecs: seq<array<Feedback>>)
    requires forall i, j | 0 <= i < j < |codecs| :: codecs[i] != codecs[j]
    modifies set a | a in codecs
    ensures forall i | 0 <= i < |codecs| :: codecs[i][..] == AfterRemb(old(codecs[i][..]))
  {
    for k := 0 to |codecs|
      invariant forall i | 0 <= i < k :: codecs[i][..] == AfterRemb(old(codecs[i][..]))
      invariant forall i | k <= i < |codecs| :: codecs[i][..] == old(codecs[i][..])
    {
      RemoveFeedbackRemb(codecs[k]);
    }
  }

  // Header extensions.

  datatype HeaderExtension = HeaderExtension(uri: string, id: int, encrypt: bool)

  predicate Contains(s: string, sub: string) {
    exists i | 0 <= i <= |s| :: OccursAt(s, sub, i)
  }

  predicate OccursAt(s: string, sub: string, i: nat) {
    i + |sub| <= |s| && s[i..i + |sub|] == sub
  }

  function NewExtensionId(uri: string): int {
    if Contains(uri, "mid") then 1
    else if Contains(uri, "abs-send-time") then 4
    else if Contains(uri, "transport-wide-cc-extensions") then 5
    else if Contains(uri, "ssrc-audio-level") then 6
    else if Contains(uri, "abs-capture-time") then 10
    else if Contains(uri, "video-orientation") then 8
    else if Contains(uri, "toffset") then 9
    else if Contains(uri, "playout-delay") then 11
    else if Contains(uri, "repaired-rtp-stream-id") then 3
    else if Contains(uri, "rtp-stream-id") then 2
    else -1
  }

  function WithNewIds(exts: seq<HeaderExtension>): seq<HeaderExtension> {
    seq(|exts|, i requires 0 <= i < |exts| => exts[i].(id := NewExtensionId(exts[i].uri)))
  }

  method ChangeExtensionId(exts: array<HeaderExtension>)
    modifies exts
    ensures exts[..] == WithNewIds(old(exts[..]))
  {
    for k := 0 to exts.Length
      invariant forall i | 0 <= i < k :: exts[i] == WithNewIds(old(exts[..]))[i]
      invariant forall i | k <= i < exts.Length :: exts[i] == old(exts[i])
    {
      exts[k] := exts[k].(id := NewExtensionId(exts[k].uri));
    }
  }

  // Codecs.

  /** apt belongs to the codec's parameter block; a codec may have none. */
  datatype CodecParameters = NoParameters | CodecParameters(apt: int, others: string)

  datatype Codec = Codec(mimeType: string, clockRate: int, channels: int, payloadType: int, parameters: CodecParameters)

  /** What an offer sets: 100 for audio; 101, and 102 repairing 101, for video. */
  function WithPayloadTypes(kind: string, codecs: seq<Codec>): seq<Codec>
    requires EnoughCodecs(kind, codecs)
  {
    if kind == "video" then
      codecs[0 := codecs[0].(payloadType := 101)]
            [1 := codecs[1].(payloadType := 102, parameters := codecs[1].parameters.(apt := 101))]
    else codecs[0 := codecs[0].(payloadType := 100)]
  }

  /** What Go needs not to panic. */
  predicate EnoughCodecs(kind: string, codecs: seq<Codec>) {
    if kind == "video" then |codecs| >= 2 && codecs[1].parameters.CodecParameters? else |codecs| >= 1
  }

  // Encodings.

  /** rtx is a pointer to the repair stream's SSRC, or nil. */
  datatype Rtx = NoRtx | Rtx(ssrc: Uint32)

  datatype Encoding = Encoding(rid: string, settings: string, ssrc: Uint32, rtx: Rtx)

  datatype WorkerEncoding = WorkerEncoding(rid: string, settings: string, ssrc: Uint32, hasRtx: bool, rtxSsrc: Uint32)

  /** A missing repair stream is given the drawn SSRC and the next one, modulo 2^32. */
  function Completed(kind: string, v: Encoding, draw: Uint32): Encoding {
    if kind == "video" && v.rtx.NoRtx? then v.(ssrc := draw, rtx := Rtx((draw + 1) % UINT32)) else v
  }

  function CompletedAll(kind: string, encodings: seq<Encoding>, draws: seq<Uint32>): seq<Encoding>
    requires |draws| == |encodings|
  {
    seq(|encodings|, i requires 0 <= i < |encodings| => Completed(kind, encodings[i], draws[i]))
  }

  predicate HaveRtx(kind: string, encodings: seq<Encoding>) {
    kind == "video" ==> forall i | 0 <= i < |encodings| :: encodings[i].rtx.Rtx?
  }

  function ForWorker(kind: string, v: Encoding): WorkerEncoding
    requires kind == "video" ==> v.rtx.Rtx?
  {
    if kind == "video" then WorkerEncoding(v.rid, v.settings, v.ssrc, true, v.rtx.ssrc)
    else WorkerEncoding(v.rid, v.settings, v.ssrc, false, 0)
  }

  function AllForWorker(kind: string, encodings: seq<Encoding>): seq<WorkerEncoding>
    requires HaveRtx(kind, encodings)
  {
    seq(|encodings|, i requires 0 <= i < |encodings| => ForWorker(kind, encodings[i]))
  }

  lemma CompletedHaveRtx(kind: string, encodings: seq<Encoding>, draws: seq<Uint32>)
    requires |draws| == |encodings|
    ensures HaveRtx(kind, CompletedAll(kind, encodings, draws))
  {
  }

  /** draws are the random numbers, one for each encoding whether needed or not. */
  method EncodingsForProducer(kind: string, encodings: array<Encoding>, draws: seq<Uint32>) returns (sent: seq<WorkerEncoding>)
    requires |draws| == encodings.Length
    modifies encodings
    ensures encodings[..] == CompletedAll(kind, old(encodings[..]), draws) && HaveRtx(kind, encodings[..])
    ensures sent == AllForWorker(kind, encodings[..])
  {
    sent := [];
    for k := 0 to encodings.Length
      invariant |sent| == k
      invariant forall i | 0 <= i < k :: encodings[i] == Completed(kind, old(encodings[i]), draws[i])
      invariant forall i | 0 <= i < k :: sent[i] == ForWorker(kind, encodings[i])
      invariant forall i | k <= i < encodings.Length :: encodings[i] == old(encodings[i])
    {
      var v := encodings[k];
      var encoding := WorkerEncoding(v.rid, v.settings, v.ssrc, false, 0);
      if kind == "video" {
        if v.rtx.NoRtx? {
          var ssrc := draws[k];
          v := v.(ssrc := ssrc, rtx := Rtx((ssrc + 1) % UINT32));
          encodings[k] := v;
        }
        encoding := encoding.(ssrc := v.ssrc, rtxSsrc := v.rtx.ssrc, hasRtx := true);
      }
      sent := sent + [encoding];
    }
  }

  /** The repair stream is read without a check, so it must be there. */
  method EncodingsForConsumer(kind: string, encodings: array<Encoding>) returns (sent: seq<WorkerEncoding>)
    requires HaveRtx(kind, encodings[..])
    ensures sent == AllForWorker(kind, encodings[..])
  {
    sent := [];
    for k := 0 to encodings.Length
      invariant |sent| == k
      invariant forall i | 0 <= i < k :: sent[i] == ForWorker(kind, encodings[i])
    {
      var v := encodings[k];
      assert v == encodings[..][k];
      var encoding := WorkerEncoding(v.rid, v.settings, v.ssrc, false, 0);
      if kind == "video" {
        encoding := encoding.(hasRtx := true, rtxSsrc := v.rtx.ssrc);
      }
      sent := sent + [encoding];
    }
  }

  // A producer's parameters and the offers made from them.

  datatype WorkerRequest = WorkerRequest(mid: string, cname: string, codecs: seq<Codec>, extensions: seq<HeaderExtension>,
                                         encodings: seq<WorkerEncoding>)

  /** A struct copy of the parameters: its own mid and cname, and the same three slices. */
  datatype OfferData = OfferData(mid: string, cname: string, codecs: array<Codec>,
                                 extensions: array<HeaderExtension>, encodings: array<Encoding>)

  class ProducerParameters {
    const kind: string
    const mid: string
    const cname: string
    const codecs: array<Codec>
    const extensions: array<HeaderExtension>
    const encodings: array<Encoding>

    constructor (kind: string, mid: string, cname: string, codecs: array<Codec>,
                 extensions: array<HeaderExtension>, encodings: array<Encoding>)
      ensures this.kind == kind && this.mid == mid && this.cname == cname
      ensures this.codecs == codecs && this.extensions == extensions && this.encodings == encodings
    {
      this.kind, this.mid, this.cname := kind, mid, cname;
      this.codecs, this.extensions, this.encodings := codecs, extensions, encodings;
    }

    /** Once the producer was created on the worker, offers can be made. */
    ghost predicate Ready()
      reads codecs, encodings
    {
      EnoughCodecs(kind, codecs[..]) && HaveRtx(kind, encodings[..])
    }

    /** The request goes out between the edit of the codecs and the edit of the extension ids. */
    method CreateNewConsumerData(mid: string, drawnCname: string) returns (data: OfferData, request: WorkerRequest)
      requires Ready()
      modifies codecs, extensions
      ensures Ready()
      ensures codecs[..] == WithPayloadTypes(kind, old(codecs[..]))
      ensures extensions[..] == WithNewIds(old(extensions[..]))
      ensures data == OfferData(mid, if kind == "video" then drawnCname else cname, codecs, extensions, encodings)
      ensures request == WorkerRequest(mid, data.cname, codecs[..], old(extensions[..]), AllForWorker(kind, encodings[..]))
    {
      data := OfferData(mid, cname, codecs, extensions, encodings);
      assert EnoughCodecs(kind, codecs[..]);
      if kind == "video" {
        data := data.(cname := drawnCname);
        data.codecs[0] := data.codecs[0].(payloadType := 101);
        data.codecs[1] := data.codecs[1].(payloadType := 102);
        data.codecs[1] := data.codecs[1].(parameters := data.codecs[1].parameters.(apt := 101));
      } else {
        data.codecs[0] := data.codecs[0].(payloadType := 100);
      }
      var sent := EncodingsForConsumer(kind, data.encodings);
      request := WorkerRequest(data.mid, data.cname, data.codecs[..], data.extensions[..], sent);
      ChangeExtensionId(data.extensions);
    }
  }

  /** Making an offer again changes nothing more, and the edits touch payload types, apt and extension ids only. */
  lemma OffersAreIdempotent(kind: string, codecs: seq<Codec>, exts: seq<HeaderExtension>)
    requires EnoughCodecs(kind, codecs)
    ensures var edited := WithPayloadTypes(kind, codecs);
            && EnoughCodecs(kind, edited) && WithPayloadTypes(kind, edited) == edited && |edited| == |codecs|
            && forall i | 0 <= i < |codecs| ::
                 && edited[i].mimeType == codecs[i].mimeType && edited[i].clockRate == codecs[i].clockRate
                 && edited[i].channels == codecs[i].channels
                 && edited[i].parameters == (if i == 1 && kind == "video" then codecs[i].parameters.(apt := 101)
                                             else codecs[i].parameters)
    ensures WithNewIds(WithNewIds(exts)) == WithNewIds(exts)
    ensures forall i | 0 <= i < |exts| :: WithNewIds(exts)[i] == exts[i].(id := WithNewIds(exts)[i].id)
  {
  }

  /** In an offer of video the repair codec names the first codec's payload type and has another of its own; the other codecs keep theirs. */
  lemma PayloadTypes(kind: string, codecs: seq<Codec>)
    requires EnoughCodecs(kind, codecs)
    ensures var edited := WithPayloadTypes(kind, codecs);
            && (kind == "video" ==>
                  && edited[1].parameters.apt == edited[0].payloadType
                  && edited[0].payloadType == 101 && edited[1].payloadType == 102)
            && (kind != "video" ==> edited[0].payloadType == 100)
            && forall i | (if kind == "video" then 2 else 1) <= i < |codecs| :: edited[i] == codecs[i]
  {
  }

  const KEYWORDS := ["mid", "abs-send-time", "transport-wide-cc-extensions", "ssrc-audio-level", "abs-capture-time",
                     "video-orientation", "toffset", "playout-delay", "repaired-rtp-stream-id", "rtp-stream-id"]

  const KEYWORD_IDS := [1, 4, 5, 6, 10, 8, 9, 11, 3, 2]

  /** The first keyword that the uri contains. */
  ghost predicate FirstKeyword(uri: string, k: nat) {
    k < |KEYWORDS| && Contains(uri, KEYWORDS[k]) && forall j | 0 <= j < k :: !Contains(uri, KEYWORDS[j])
  }

  /** An extension's id is its first keyword's, and no two keywords share one. */
  lemma ExtensionIds(uri: string, k: nat)
    requires FirstKeyword(uri, k)
    ensures NewExtensionId(uri) == KEYWORD_IDS[k]
    ensures forall i, j | 0 <= i < j < |KEYWORD_IDS| :: KEYWORD_IDS[i] != KEYWORD_IDS[j]
  {
    hide Contains;
    KeywordsAre();
    assert forall j | 0 <= j < k :: !Contains(uri, KEYWORDS[j]);
  }

  /** Without a keyword the id is -1. */
  lemma NoExtensionId(uri: string)
    requires forall k | 0 <= k < |KEYWORDS| :: !Contains(uri, KEYWORDS[k])
    ensures NewExtensionId(uri) == -1
  {
    hide Contains;
    KeywordsAre();
  }

  lemma KeywordsAre()
    ensures KEYWORDS[0] == "mid" && KEYWORDS[1] == "abs-send-time" && KEYWORDS[2] == "transport-wide-cc-extensions"
    ensures KEYWORDS[3] == "ssrc-audio-level" && KEYWORDS[4] == "abs-capture-time" && KEYWORDS[5] == "video-orientation"
    ensures KEYWORDS[6] == "toffset" && KEYWORDS[7] == "playout-delay" && KEYWORDS[8] == "repaired-rtp-stream-id"
    ensures KEYWORDS[9] == "rtp-stream-id"
  {
  }

  /**
    The encodings the worker is given for a producer are those it is given for each of its
    consumers. For video every one has a repair stream: the client's own if it named one,
    and otherwise a generated pair of distinct SSRCs, even where the number wraps.
  */
  lemma EncodingsAgree(kind: string, encodings: seq<Encoding>, draws: seq<Uint32>, again: seq<Uint32>)
    requires |draws| == |again| == |encodings|
    ensures var stored := CompletedAll(kind, encodings, draws);
            && HaveRtx(kind, stored) && CompletedAll(kind, stored, again) == stored
            && forall i | 0 <= i < |encodings| ::
                 var sent := AllForWorker(kind, stored)[i];
                 && sent.rid == encodings[i].rid && sent.settings == encodings[i].settings
                 && (kind != "video" || encodings[i].rtx.Rtx? ==> sent.ssrc == encodings[i].ssrc)
                 && (kind == "video" && encodings[i].rtx.Rtx? ==> sent.rtxSsrc == encodings[i].rtx.ssrc)
                 && (kind == "video" && encodings[i].rtx.NoRtx? ==> sent.ssrc == draws[i] && sent.rtxSsrc != sent.ssrc)
                 && (sent.hasRtx <==> kind == "video")
  {
    CompletedHaveRtx(kind, encodings, draws);
    forall i | 0 <= i < |encodings| ensures (draws[i] + 1) % UINT32 != draws[i] {
    }
  }

  /** A producer and any number of consumers of it: the requests agree, encoding by encoding, and so do the offers. */
  method OfferToMany(producer: ProducerParameters, draws: seq<Uint32>, mids: seq<string>, cnames: seq<string>)
    returns (sent: seq<WorkerEncoding>, offers: seq<OfferData>, requests: seq<WorkerRequest>)
    requires |draws| == producer.encodings.Length && |mids| == |cnames|
    requires EnoughCodecs(producer.kind, producer.codecs[..])
    modifies producer.codecs, producer.extensions, producer.encodings
    ensures |offers| == |requests| == |mids|
    ensures forall i | 0 <= i < |mids| ::
              && requests[i].encodings == sent && requests[i].mid == offers[i].mid == mids[i]
              && offers[i].codecs == producer.codecs && offers[i].extensions == producer.extensions
    ensures forall i | 0 <= i < |mids| ::
              && requests[i].codecs == WithPayloadTypes(producer.kind, old(producer.codecs[..]))
              && requests[i].extensions == if i == 0 then old(producer.extensions[..]) else WithNewIds(old(producer.extensions[..]))
    ensures (forall i | 0 <= i < |mids| :: requests[i].extensions == requests[0].extensions) <==>
            |mids| <= 1 || WithNewIds(old(producer.extensions[..])) == old(producer.extensions[..])
    ensures mids != [] ==>
              && producer.codecs[..] == WithPayloadTypes(producer.kind, old(producer.codecs[..]))
              && producer.extensions[..] == WithNewIds(old(producer.extensions[..]))
  {
    sent := EncodingsForProducer(producer.kind, producer.encodings, draws);
    offers, requests := [], [];
    for k := 0 to |mids|
      invariant producer.Ready() && sent == AllForWorker(producer.kind, producer.encodings[..])
      invariant |offers| == |requests| == k
      invariant forall i | 0 <= i < k ::
                  && requests[i].encodings == sent && requests[i].mid == offers[i].mid == mids[i]
                  && offers[i].codecs == producer.codecs && offers[i].extensions == producer.extensions
      invariant forall i | 0 <= i < k ::
                  && requests[i].codecs == WithPayloadTypes(producer.kind, old(producer.codecs[..]))
                  && requests[i].extensions == if i == 0 then old(producer.extensions[..]) else WithNewIds(old(producer.extensions[..]))
      invariant k == 0 ==> producer.codecs[..] == old(producer.codecs[..])
                           && producer.extensions[..] == old(producer.extensions[..])
      invariant k > 0 ==> producer.codecs[..] == WithPayloadTypes(producer.kind, old(producer.codecs[..]))
                          && producer.extensions[..] == WithNewIds(old(producer.extensions[..]))
    {
      OffersAreIdempotent(producer.kind, old(producer.codecs[..]), old(producer.extensions[..]));
      var data, request := producer.CreateNewConsumerData(mids[k], cnames[k]);
      offers, requests := offers + [data], requests + [request];
    }
    assert |mids| > 1 ==> requests[1].extensions == WithNewIds(old(producer.extensions[..]));
  }

  /** These preconditions are the room's: what an offer needs of the codecs is what is kept of them with the producer. */
  lemma EnoughIsOfferable(kind: string, codecs: seq<Codec>, nullEncoding: bool)
    ensures EnoughCodecs(kind, codecs) <==>
            Offerable(kind, Shape(|codecs|, |codecs| >= 2 && codecs[1].parameters.CodecParameters?, nullEncoding))
    ensures EnoughCodecs(kind, codecs) ==>
              EnoughCodecs(kind, WithPayloadTypes(kind, codecs)) && |WithPayloadTypes(kind, codecs)| == |codecs|
  {
  }
}
