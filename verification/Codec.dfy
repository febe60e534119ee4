/** The record codec (event/reflect.go) and the pointer codec (event/events.go). */
module Codec {
  import opened Words
  import opened Text
  import opened Events

  /** The text an id is printed as. */
  type UlidText = s: string | |s| == 26 && '\t' !in s witness "00000000000000000000000000"

  /**
   The registry of event types, and the codecs the library calls but does not define: the text of an event id,
   what a registered type's own (un)marshaller does, and the JSON an UnknownEvent keeps.
   */
  datatype Codec = Codec(
    registered: set<string>,
    printID: Ulid -> UlidText,
    parseID: string -> Option<Ulid>,
    encode: (string, string) -> Option<string>,
    decode: (string, string) -> Option<string>,
    toJson: map<string, string> -> Option<string>,
    fromJson: string -> Option<map<string, string>>)
  {
    /** An id is read back as it was printed; other texts of the same id may be taken too. */
    ghost predicate KeepsIDs() {
      forall id: Ulid :: parseID(printID(id)) == Some(id)
    }

    /** Ids are kept, and payload codecs round-trip on what they encode. */
    ghost predicate Lawful() {
      && KeepsIDs()
      && (forall n, v | encode(n, v).Some? :: decode(n, encode(n, v).value) == Some(v))
      && (forall m | toJson(m).Some? :: fromJson(toJson(m).value) == Some(m))
    }
  }

  datatype CodecError = NoPayload | BadFormat(got: nat) | BadEventID | BadPayload

  // Pointers

  function PtrText(target: string, pos: uint64): string {
    target + "@" + Decimal(pos)
  }

  /** What EventPtr.UnmarshalBinary leaves in the fields, and whether it returned an error. */
  datatype PtrParse = PtrParse(target: string, pos: uint64, ok: bool)

  /** The fields start out as `was`; without an '@' they are not touched. */
  function ParsePtr(s: string, was: PtrParse): PtrParse {
    var idx := LastIndexOf(s, '@');
    if idx == -1 then was.(ok := false)
    else
      var (pos, ok) := ParseUint(s[idx + 1..]);
      PtrParse(s[..idx], pos, ok)
  }

  const FRESH_PTR := PtrParse("", 0, false)

  /** The last '@' of a text whose tail holds none splits it. */
  lemma ParseAt(target: string, tail: string, was: PtrParse)
    requires '@' !in tail
    ensures ParsePtr(target + "@" + tail, was) == PtrParse(target, ParseUint(tail).0, ParseUint(tail).1)
  {
    var s := target + "@" + tail;
    LastAt(target, '@', tail);
    assert s[..|target|] == target;
    assert s[|target| + 1..] == tail;
  }

  /** Printing then parsing gives the pointer back, whatever '@' the stream id holds. */
  lemma PtrRoundTrip(target: string, pos: uint64, was: PtrParse)
    ensures ParsePtr(PtrText(target, pos), was) == PtrParse(target, pos, true)
  {
    ParseAt(target, Decimal(pos), was);
    ParseDecimal(pos);
  }

  /** Parsing what was printed from an accepted input gives what the input gave. */
  lemma PtrReparse(s: string, was: PtrParse, was': PtrParse)
    requires ParsePtr(s, was).ok
    ensures var p := ParsePtr(s, was); ParsePtr(PtrText(p.target, p.pos), was') == p
  {
    var p := ParsePtr(s, was);
    PtrRoundTrip(p.target, p.pos, was');
  }

  /** The printed forms of a pointer: any spelling of its position, leading zeros included. */
  ghost predicate Spells(s: string, target: string, pos: uint64) {
    exists digits {:trigger target + "@" + digits} ::
      s == target + "@" + digits && digits != [] && AllDigits(digits) && Number(digits) == pos
  }

  /** Exactly the inputs of the form `<stream>@<digits>` whose digits fit 64 bits are accepted. */
  lemma PtrAccepts(s: string, target: string, pos: uint64)
    ensures ParsePtr(s, FRESH_PTR) == PtrParse(target, pos, true) <==> Spells(s, target, pos)
  {
    if ParsePtr(s, FRESH_PTR) == PtrParse(target, pos, true) {
      var digits := s[LastIndexOf(s, '@') + 1..];
      assert s == target + "@" + digits;
    }
    if Spells(s, target, pos) {
      var digits :| s == target + "@" + digits && digits != [] && AllDigits(digits) && Number(digits) == pos;
      ParseAt(target, digits, FRESH_PTR);
    }
  }

  /**
   What a rejected text leaves behind: without an '@' the fields as they were, else the stream in front of the last
   one, and as position 0, or the largest one when the digits up to a place name a larger.
   */
  lemma PtrRejects(target: string, tail: string, was: PtrParse)
    requires '@' !in tail && !ParsePtr(target + "@" + tail, was).ok
    ensures var p := ParsePtr(target + "@" + tail, was);
            && p.target == target
            && if tail == "" then p.pos == 0
               else exists k | 0 <= k < |tail| ::
                      StopsAt(tail, k) && p.pos == if IsDigit(tail[k]) then 0xFFFF_FFFF_FFFF_FFFF else 0
  {
    ParseAt(target, tail, was);
    if tail != "" {
      var k := ScanFails(tail);
    }
  }

  lemma PtrMissing(s: string, was: PtrParse)
    ensures '@' !in s <==> LastIndexOf(s, '@') == -1
    ensures '@' !in s ==> ParsePtr(s, was) == PtrParse(was.target, was.pos, false)
  {
  }

  /** An EventPtr object; its unmarshaller assigns the fields in place, also when it fails. */
  class EventPtr {
    var StreamID: string
    var Pos: uint64

    constructor (streamID: string, pos: uint64)
      ensures StreamID == streamID && Pos == pos
    {
      StreamID, Pos := streamID, pos;
    }

    method MarshalBinary() returns (data: string)
      ensures data == PtrText(StreamID, Pos)
      ensures forall was :: ParsePtr(data, was) == PtrParse(StreamID, Pos, true)
    {
      data := StreamID + "@" + Decimal(Pos);
      forall was
        ensures ParsePtr(data, was) == PtrParse(StreamID, Pos, true)
      {
        PtrRoundTrip(StreamID, Pos, was);
      }
    }

    method UnmarshalBinary(data: string) returns (ok: bool)
      modifies this
      ensures PtrParse(StreamID, Pos, ok) == ParsePtr(data, PtrParse(old(StreamID), old(Pos), true))
    {
      var idx := LastIndexOf(data, '@');
      if idx == -1 {
        return false;
      }
      StreamID := data[..idx];
      var r := ParseUint(data[idx + 1..]);
      Pos := r.0;
      return r.1;
    }
  }

  // Payloads

  datatype Container = PtrBox | NilBox | PlainBox(name: string) | UnknownBox(name: string)

  /** The container for a type name, once event.Init has run. */
  function GetContainer(c: Codec, name: string): Container {
    if name == PTR_TYPE || name == LEGACY_PTR_TYPE then PtrBox
    else if name == NIL_TYPE then NilBox
    else if name in c.registered then PlainBox(name)
    else UnknownBox(name)
  }

  function EncodeBody(c: Codec, body: Body): Option<string> {
    match body
    case Ptr(target, pos) => Some(PtrText(target, pos))
    case Nil => Some("")
    case Plain(name, value) => c.encode(name, value)
    case Unknown(_, values) => c.toJson(values)
  }

  function DecodeBody(c: Codec, box: Container, txt: string): Option<Body> {
    match box
    case PtrBox =>
      var p := ParsePtr(txt, FRESH_PTR);
      if p.ok then Some(Ptr(p.target, p.pos)) else None
    case NilBox => Some(Nil)
    case PlainBox(name) =>
      var v := c.decode(name, txt);
      if v.Some? then Some(Plain(name, v.value)) else None
    case UnknownBox(name) =>
      var m := c.fromJson(txt);
      if m.Some? then Some(Unknown(name, m.value)) else None
  }

  /** The names the library itself registers. */
  predicate BuiltIn(name: string) {
    name == "event.EventPtr" || name == "event.eventPtr" || name == "event.nilEvent"
  }

  /** The body survives the store: its type is registered exactly when it is not an UnknownEvent. */
  predicate EncodableBody(c: Codec, body: Body) {
    && TAB !in TypeOf(body)
    && EncodeBody(c, body).Some?
    && match body
       case Ptr(_, _) => true
       case Nil => true
       case Plain(name, _) => name in c.registered && !BuiltIn(name)
       case Unknown(name, _) => name !in c.registered && !BuiltIn(name)
  }

  lemma BodyRoundTrip(c: Codec, body: Body)
    requires c.Lawful() && EncodableBody(c, body)
    ensures DecodeBody(c, GetContainer(c, TypeOf(body)), EncodeBody(c, body).value) == Some(body)
  {
    match body
    case Ptr(target, pos) => PtrRoundTrip(target, pos, FRESH_PTR);
    case Nil =>
    case Plain(_, _) =>
    case Unknown(_, _) =>
  }

  // Records

  function Marshal(c: Codec, e: Event): Result<string, CodecError> {
    var txt := EncodeBody(c, e.body);
    if txt.None? then Err(NoPayload)
    else Ok(Join([c.printID(e.meta.eventID), e.meta.streamID, TypeOf(e.body), txt.value], TAB))
  }

  function Unmarshal(c: Codec, txt: string, pos: uint64): Result<Event, CodecError> {
    var sp := SplitN(txt, TAB, 4);
    if |sp| != 4 then Err(BadFormat(|sp|))
    else
      var id := c.parseID(sp[0]);
      if id.None? then Err(BadEventID)
      else
        var body := DecodeBody(c, GetContainer(c, sp[2]), sp[3]);
        if body.None? then Err(BadPayload)
        else Ok(Event(Meta(id.value, sp[1], pos, sp[1], pos), body.value))
  }

  predicate Encodable(c: Codec, e: Event) {
    TAB !in e.meta.streamID && EncodableBody(c, e.body)
  }

  /** The form every event has inside a log: at `pos` of the stream it was written to. */
  function Entry(e: Event, pos: uint64): Event {
    Event(Meta(e.meta.eventID, e.meta.streamID, pos, e.meta.streamID, pos), e.body)
  }

  /** The entries a list becomes when its first event goes to position `from`. */
  function Entries(lis: seq<Event>, from: nat): (r: seq<Event>)
    requires from + |lis| <= TWO64
    ensures |r| == |lis|
    ensures forall i | 0 <= i < |lis| :: r[i] == Entry(lis[i], from + i)
  {
    seq(|lis|, i requires 0 <= i < |lis| => Entry(lis[i], from + i))
  }

  /** Unmarshalling a marshalled event gives its id, stream and payload back, at the position asked for. */
  lemma RecordRoundTrip(c: Codec, e: Event, pos: uint64)
    requires c.Lawful() && Encodable(c, e)
    ensures Marshal(c, e).Ok?
    ensures Unmarshal(c, Marshal(c, e).value, pos) == Ok(Entry(e, pos))
  {
    SplitJoin([c.printID(e.meta.eventID), e.meta.streamID, TypeOf(e.body), EncodeBody(c, e.body).value], TAB);
    BodyRoundTrip(c, e.body);
  }

  lemma HeaderSplits(a: string, b: string, t: string, txt: string)
    requires TAB !in a && TAB !in b
    ensures var sp := SplitN(Join([a, b, t, txt], TAB), TAB, 4); |sp| >= 2 && sp[0] == a && sp[1] == b
  {
    var rest := t + [TAB] + txt;
    assert Join([t, txt], TAB) == rest;
    assert Join([b, t, txt], TAB) == b + [TAB] + rest;
    SplitHead(a, TAB, b + [TAB] + rest, 4);
    SplitHead(b, TAB, rest, 3);
  }

  /** The id and the stream of a record are safe even when its type or payload are not what was written. */
  lemma HeaderDecodes(c: Codec, e: Event, pos: uint64)
    requires TAB !in e.meta.streamID && Marshal(c, e).Ok?
    ensures var r := Unmarshal(c, Marshal(c, e).value, pos);
            r.Ok? ==>
              && r.value.meta == Entry(e, pos).meta.(eventID := r.value.meta.eventID)
              && (c.KeepsIDs() ==> r.value.meta == Entry(e, pos).meta)
  {
    HeaderSplits(c.printID(e.meta.eventID), e.meta.streamID, TypeOf(e.body), EncodeBody(c, e.body).value);
  }

  /** A record is refused for its shape exactly when it has fewer than three tabs. */
  lemma TooFewTabs(c: Codec, txt: string, pos: uint64)
    ensures Count(txt, TAB) < 3 <==> Unmarshal(c, txt, pos) == Err(BadFormat(Count(txt, TAB) + 1))
  {
    SplitLength(txt, TAB, 4);
  }

  /** What is written: the id, the stream, the type and the payload, with a tab in front of each but the first. */
  lemma RecordText(c: Codec, e: Event)
    ensures match EncodeBody(c, e.body)
            case None => Marshal(c, e) == Err(NoPayload)
            case Some(txt) =>
              Marshal(c, e) ==
              Ok(c.printID(e.meta.eventID) + "\t" + e.meta.streamID + "\t" + TypeOf(e.body) + "\t" + txt)
  {
    var id, stream, name := c.printID(e.meta.eventID), e.meta.streamID, TypeOf(e.body);
    match EncodeBody(c, e.body)
    case None =>
    case Some(txt) =>
      JoinMore(id, [stream, name, txt], TAB);
      JoinMore(stream, [name, txt], TAB);
      JoinMore(name, [txt], TAB);
      assert [id] + [stream, name, txt] == [id, stream, name, txt];
      assert [stream] + [name, txt] == [stream, name, txt] && [name] + [txt] == [name, txt];
      assert id + "\t" + stream + "\t" + name + "\t" + txt == id + "\t" + (stream + "\t" + (name + "\t" + txt));
  }

  /** The two payloads the library writes itself: a pointer in its text form, and a nil event with none. */
  lemma BuiltInText(c: Codec, m: Meta, target: string, pos: uint64)
    ensures Marshal(c, Event(m, Nil)) == Ok(c.printID(m.eventID) + "\t" + m.streamID + "\t" + "event.nilEvent" + "\t")
    ensures Marshal(c, Event(m, Ptr(target, pos))) ==
            Ok(c.printID(m.eventID) + "\t" + m.streamID + "\t" + "event.EventPtr" + "\t" +
               (target + "@" + Decimal(pos)))
  {
    RecordText(c, Event(m, Nil));
    RecordText(c, Event(m, Ptr(target, pos)));
    assert c.printID(m.eventID) + "\t" + m.streamID + "\t" + "event.nilEvent" + "\t" + "" ==
           c.printID(m.eventID) + "\t" + m.streamID + "\t" + "event.nilEvent" + "\t";
  }

  /** A record whose shape is fine is decoded by its type name. */
  lemma RecordDecodes(c: Codec, id: string, streamID: string, name: string, txt: string, pos: uint64)
    requires TAB !in id && TAB !in streamID && TAB !in name
    ensures Unmarshal(c, Join([id, streamID, name, txt], TAB), pos) ==
            if c.parseID(id).None? then Err(BadEventID)
            else
              match DecodeBody(c, GetContainer(c, name), txt)
              case None => Err(BadPayload)
              case Some(body) => Ok(Event(Meta(c.parseID(id).value, streamID, pos, streamID, pos), body))
  {
    SplitJoin([id, streamID, name, txt], TAB);
  }

  /** A well-formed record of a registered type becomes an event of that type, or an error of its unmarshaller. */
  lemma RegisteredIsPlain(c: Codec, id: Ulid, streamID: string, name: string, txt: string, pos: uint64)
    requires TAB !in streamID && TAB !in name && c.KeepsIDs()
    requires name in c.registered && !BuiltIn(name)
    ensures Unmarshal(c, Join([c.printID(id), streamID, name, txt], TAB), pos) ==
            match c.decode(name, txt)
            case None => Err(BadPayload)
            case Some(v) => Ok(Event(Meta(id, streamID, pos, streamID, pos), Plain(name, v)))
  {
    RecordDecodes(c, c.printID(id), streamID, name, txt, pos);
  }

  /** A record whose shape and id are fine but whose type nobody registered becomes an UnknownEvent of that type. */
  lemma UnregisteredIsUnknown(c: Codec, id: Ulid, streamID: string, name: string, txt: string, pos: uint64)
    requires TAB !in streamID && TAB !in name && c.KeepsIDs()
    requires name !in c.registered && !BuiltIn(name)
    ensures Unmarshal(c, Join([c.printID(id), streamID, name, txt], TAB), pos) ==
            match c.fromJson(txt)
            case None => Err(BadPayload)
            case Some(m) => Ok(Event(Meta(id, streamID, pos, streamID, pos), Unknown(name, m)))
  {
    RecordDecodes(c, c.printID(id), streamID, name, txt, pos);
  }

  /** A record of the library's own types is a pointer, under its present or its old name, or the nil event. */
  lemma BuiltInDecodes(c: Codec, id: Ulid, streamID: string, name: string, txt: string, pos: uint64)
    requires TAB !in streamID && TAB !in name && c.KeepsIDs() && BuiltIn(name)
    ensures var meta := Meta(id, streamID, pos, streamID, pos);
            Unmarshal(c, Join([c.printID(id), streamID, name, txt], TAB), pos) ==
            if name == "event.nilEvent" then Ok(Event(meta, Nil))
            else
              var p := ParsePtr(txt, FRESH_PTR);
              if p.ok then Ok(Event(meta, Ptr(p.target, p.pos))) else Err(BadPayload)
  {
    RecordDecodes(c, c.printID(id), streamID, name, txt, pos);
  }

  /** A record is refused for its id when that is not one, whatever follows. */
  lemma BadID(c: Codec, id: string, streamID: string, name: string, txt: string, pos: uint64)
    requires TAB !in id && TAB !in streamID && TAB !in name
    ensures Unmarshal(c, Join([id, streamID, name, txt], TAB), pos) == Err(BadEventID) <==> c.parseID(id).None?
  {
    RecordDecodes(c, id, streamID, name, txt, pos);
  }

  /**
   Whatever a record decodes to, re-encoding keeps its stream and type, except that a pointer stored under its
   old type name comes back under the new one; its id is printed anew, the same when it was a printed one.
   */
  lemma HeaderKept(c: Codec, txt: string, pos: uint64)
    requires Unmarshal(c, txt, pos).Ok?
    requires Marshal(c, Unmarshal(c, txt, pos).value).Ok?
    ensures var sp := SplitN(txt, TAB, 4);
            var sp' := SplitN(Marshal(c, Unmarshal(c, txt, pos).value).value, TAB, 4);
            && |sp| == |sp'| == 4
            && c.parseID(sp[0]).Some? && sp'[0] == c.printID(c.parseID(sp[0]).value)
            && (c.KeepsIDs() ==> forall id :: sp[0] == c.printID(id) ==> sp'[0] == sp[0])
            && sp'[1] == sp[1]
            && sp'[2] == (if sp[2] == LEGACY_PTR_TYPE then PTR_TYPE else sp[2])
  {
    var e := Unmarshal(c, txt, pos).value;
    JoinSplit(txt, TAB, 4);
    SplitJoin([c.printID(e.meta.eventID), e.meta.streamID, TypeOf(e.body), EncodeBody(c, e.body).value], TAB);
  }

  // Batches

  function MarshalEach(c: Codec, lis: seq<Event>): (r: seq<Result<string, CodecError>>)
    ensures |r| == |lis| && forall k | 0 <= k < |lis| :: r[k] == Marshal(c, lis[k])
  {
    seq(|lis|, k requires 0 <= k < |lis| => Marshal(c, lis[k]))
  }

  /** Positions count from 0. */
  function UnmarshalEach(c: Codec, lis: seq<string>): (r: seq<Result<Event, CodecError>>)
    requires |lis| <= TWO63
    ensures |r| == |lis| && forall k | 0 <= k < |lis| :: r[k] == Unmarshal(c, lis[k], k)
  {
    seq(|lis|, k requires 0 <= k < |lis| => Unmarshal(c, lis[k], k))
  }

  /** All of the records, or the first error. */
  method EncodeEvents(c: Codec, events: seq<EventRef>) returns (r: Result<seq<string>, CodecError>)
    ensures r == All(MarshalEach(c, Values(events)))
  {
    var lis := [];
    ghost var rs := MarshalEach(c, Values(events));
    for i := 0 to |events|
      invariant |lis| == i && forall k | 0 <= k < i :: rs[k] == Ok(lis[k])
    {
      var b := Marshal(c, events[i].Value());
      if b.Err? {
        CollectIs(rs, lis);
        return Err(b.error);
      }
      lis := lis + [b.value];
    }
    CollectIs(rs, lis);
    return Ok(lis);
  }

  method DecodeEvents(c: Codec, lis: seq<string>) returns (r: Result<seq<EventRef>, CodecError>)
    requires |lis| <= TWO63
    ensures match All(UnmarshalEach(c, lis))
            case Ok(all) => r.Ok? && fresh(r.value) && Distinct(r.value) && Values(r.value) == all
            case Err(e) => r == Err(e)
  {
    var elis: seq<EventRef> := [];
    ghost var rs := UnmarshalEach(c, lis);
    for i := 0 to |lis|
      invariant |elis| == i && fresh(elis) && Distinct(elis)
      invariant forall k | 0 <= k < i :: rs[k] == Ok(elis[k].Value())
    {
      var e := Unmarshal(c, lis[i], i);
      if e.Err? {
        CollectIs(rs, Values(elis));
        return Err(e.error);
      }
      var o := new EventRef(e.value);
      elis := elis + [o];
    }
    CollectIs(rs, Values(elis));
    return Ok(elis);
  }

  /** What a batch looks like after its trip through the codec. */
  lemma BatchRoundTrip(c: Codec, lis: seq<Event>)
    requires c.Lawful() && |lis| <= TWO63
    requires forall i | 0 <= i < |lis| :: Encodable(c, lis[i])
    ensures All(MarshalEach(c, lis)).Ok?
    ensures All(UnmarshalEach(c, All(MarshalEach(c, lis)).value)) == Ok(Entries(lis, 0))
  {
    forall i | 0 <= i < |lis|
      ensures Marshal(c, lis[i]).Ok?
      ensures Unmarshal(c, Marshal(c, lis[i]).value, i) == Ok(Entry(lis[i], i))
    {
      RecordRoundTrip(c, lis[i], i);
    }
    var txts := All(MarshalEach(c, lis)).value;
    CollectIs(UnmarshalEach(c, txts), Entries(lis, 0));
  }

  /**
   A list numbered by NewEvents and stamped by SetStreamID comes back equal, all five metadata fields
   included, exactly when no event brought an `actual` field of its own that says otherwise.
   */
  lemma BatchIdentity(c: Codec, lis: seq<Event>, ids: seq<Ulid>, streamID: string)
    requires c.Lawful() && |ids| == |lis| <= TWO63
    requires TAB !in streamID && forall i | 0 <= i < |lis| :: EncodableBody(c, lis[i].body)
    ensures var stamped := OwnedAll(NumberedAll(lis, ids), streamID);
            && All(MarshalEach(c, stamped)).Ok?
            && (All(UnmarshalEach(c, All(MarshalEach(c, stamped)).value)) == Ok(stamped) <==>
                forall i | 0 <= i < |lis| ::
                  && lis[i].meta.actualPosition in {0, i}
                  && lis[i].meta.actualStreamID in {"", streamID})
  {
    var stamped := OwnedAll(NumberedAll(lis, ids), streamID);
    BatchRoundTrip(c, stamped);
    var back := Entries(stamped, 0);
    assert forall i | 0 <= i < |lis| :: back[i] == stamped[i] <==>
      lis[i].meta.actualPosition in {0, i} && lis[i].meta.actualStreamID in {"", streamID};
    assert back == stamped <==> forall i | 0 <= i < |lis| :: back[i] == stamped[i];
  }
}
