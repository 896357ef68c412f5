/** Events, their envelopes and the four subscription filters of the event server.
    A Go string and a byte slice are both byte sequences; both appear here as `string`. */
module Events {
  import opened Wrappers

  /** Identifiers: only equality and the distinguished nil id matter. */
  datatype Uuid = Nil | Id(n: nat)

  datatype Event = Event(name: string, data: string)

  /** An event with its registration data; `index` is 0 until the topic stores the envelope. */
  datatype EventEnvelope = EventEnvelope(event: Option<Event>, topic: string, publisher: Uuid, index: int) {
    /** The obligatory fields: an event and a publisher. */
    predicate Check() {
      event.Some? && publisher != Nil
    }
  }

  predicate OccursAt(part: string, s: string, i: int) {
    0 <= i <= |s| - |part| && s[i..i + |part|] == part
  }

  predicate Contains(s: string, part: string) {
    exists i :: 0 <= i <= |s| && OccursAt(part, s, i)
  }

  /** The filters a subscriber can build. */
  datatype Filter = WithName(name: string) | WithSubName(str: string) | WithSubData(dat: string) | WithSubstr(str: string) {
    predicate Accepts(ee: EventEnvelope) {
      ee.event.Some? &&
      match this
      case WithName(n) => n == ee.event.value.name
      case WithSubName(s) => Contains(ee.event.value.name, s)
      case WithSubData(d) => Contains(ee.event.value.data, d)
      case WithSubstr(s) => Contains(ee.event.value.data, s)
    }
  }

  predicate AllAccept(filters: seq<Filter>, ee: EventEnvelope) {
    forall f :: f in filters ==> f.Accepts(ee)
  }

  lemma ContainsParts(s: string, part: string)
    ensures Contains(s, part) <==> exists before: string, after: string :: s == before + part + after
  {
    if Contains(s, part) {
      var i :| 0 <= i <= |s| && OccursAt(part, s, i);
      assert s == s[..i] + part + s[i + |part|..];
    }
    if before: string, after: string :| s == before + part + after {
      assert OccursAt(part, s, |before|);
    }
  }

  /** What each filter lets through: a whole name, a part of the name, or a part of the data. An
      envelope without an event passes none. */
  lemma FilterMeans(f: Filter, ee: EventEnvelope)
    ensures ee.event.None? ==> !f.Accepts(ee)
    ensures ee.event.Some? ==>
              var name, data := ee.event.value.name, ee.event.value.data;
              && (f.WithName? ==> (f.Accepts(ee) <==> name == f.name))
              && (f.WithSubName? ==> (f.Accepts(ee) <==> exists before: string, after: string :: name == before + f.str + after))
              && (f.WithSubData? ==> (f.Accepts(ee) <==> exists before: string, after: string :: data == before + f.dat + after))
              && (f.WithSubstr? ==> (f.Accepts(ee) <==> exists before: string, after: string :: data == before + f.str + after))
  {
    if ee.event.Some? && !f.WithName? {
      var part := if f.WithSubData? then f.dat else f.str;
      ContainsParts(if f.WithSubName? then ee.event.value.name else ee.event.value.data, part);
    }
    hide Contains;
  }
}
