/** The append-only log writer with location failover shared by the scheduled jobs
    (`_write_log` in crm/cron.py, `_log_message` in crm/tasks.py).

    A log location is modelled as the sequence of chunks appended to it; whether the
    primary and the secondary location accept writes is part of the environment and
    stays fixed for the duration of one job run. */
module LogSink {

  /** What one logging call would put in each place: the chunk for a file, the
      provenance note added after it in the secondary file, and the console line. */
  datatype Entry = Entry(text: string, note: string, echo: string)

  datatype Sinks = Sinks(primary: seq<string>, secondary: seq<string>, console: seq<string>)

  /** One failover write: primary if writable, else secondary (text, then note),
      else console. Total: it never fails. */
  function Deliver(s: Sinks, primaryOk: bool, secondaryOk: bool, e: Entry): Sinks {
    if primaryOk then s.(primary := s.primary + [e.text])
    else if secondaryOk then s.(secondary := s.secondary + [e.text, e.note])
    else s.(console := s.console + [e.echo])
  }

  /** The entries delivered one after the other, in order. */
  function DeliverAll(s: Sinks, primaryOk: bool, secondaryOk: bool, es: seq<Entry>): Sinks
  {
    if es == [] then s
    else Deliver(DeliverAll(s, primaryOk, secondaryOk, es[..|es| - 1]), primaryOk, secondaryOk, es[|es| - 1])
  }

  function Texts(es: seq<Entry>): (r: seq<string>)
    ensures |r| == |es| && forall k :: 0 <= k < |es| ==> r[k] == es[k].text
  {
    if es == [] then [] else Texts(es[..|es| - 1]) + [es[|es| - 1].text]
  }

  function TextsWithNotes(es: seq<Entry>): (r: seq<string>)
    ensures |r| == 2 * |es|
    ensures forall k :: 0 <= k < |es| ==> r[2 * k] == es[k].text && r[2 * k + 1] == es[k].note
  {
    if es == [] then [] else TextsWithNotes(es[..|es| - 1]) + [es[|es| - 1].text, es[|es| - 1].note]
  }

  function Echoes(es: seq<Entry>): (r: seq<string>)
    ensures |r| == |es| && forall k :: 0 <= k < |es| ==> r[k] == es[k].echo
  {
    if es == [] then [] else Echoes(es[..|es| - 1]) + [es[|es| - 1].echo]
  }

  /** Over a whole run the messages land, in order, in the first location that accepts
      writes, and the other two locations are left as they were. */
  lemma {:induction false} DeliverAllRoutes(s: Sinks, primaryOk: bool, secondaryOk: bool, es: seq<Entry>)
    ensures var r := DeliverAll(s, primaryOk, secondaryOk, es);
      && (primaryOk ==> r == s.(primary := s.primary + Texts(es)))
      && (!primaryOk && secondaryOk ==> r == s.(secondary := s.secondary + TextsWithNotes(es)))
      && (!primaryOk && !secondaryOk ==> r == s.(console := s.console + Echoes(es)))
  {
    if es != [] {
      var init := es[..|es| - 1];
      DeliverAllRoutes(s, primaryOk, secondaryOk, init);
      assert Texts(es) == Texts(init) + [es[|es| - 1].text];
      assert TextsWithNotes(es) == TextsWithNotes(init) + [es[|es| - 1].text, es[|es| - 1].note];
      assert Echoes(es) == Echoes(init) + [es[|es| - 1].echo];
    }
  }

  lemma DeliverAllSnoc(s: Sinks, primaryOk: bool, secondaryOk: bool, es: seq<Entry>, e: Entry)
    ensures DeliverAll(s, primaryOk, secondaryOk, es + [e])
         == Deliver(DeliverAll(s, primaryOk, secondaryOk, es), primaryOk, secondaryOk, e)
  {
    assert (es + [e])[..|es + [e]| - 1] == es;
  }

  /** Delivering two batches one after the other is delivering their concatenation. */
  lemma {:induction false} DeliverAllAppend(s: Sinks, primaryOk: bool, secondaryOk: bool, a: seq<Entry>, b: seq<Entry>)
    ensures DeliverAll(s, primaryOk, secondaryOk, a + b)
         == DeliverAll(DeliverAll(s, primaryOk, secondaryOk, a), primaryOk, secondaryOk, b)
  {
    if b == [] {
      assert a + b == a;
    } else {
      DeliverAllAppend(s, primaryOk, secondaryOk, a, b[..|b| - 1]);
      assert (a + b)[..|a + b| - 1] == a + b[..|b| - 1];
    }
  }

  class FailoverLog {
    var primary: seq<string>
    var secondary: seq<string>
    var console: seq<string>
    var primaryWritable: bool
    var secondaryWritable: bool

    function State(): Sinks
      reads this
    {
      Sinks(primary, secondary, console)
    }

    constructor (primaryWritable: bool, secondaryWritable: bool)
      ensures State() == Sinks([], [], [])
      ensures this.primaryWritable == primaryWritable && this.secondaryWritable == secondaryWritable
    {
      primary, secondary, console := [], [], [];
      this.primaryWritable, this.secondaryWritable := primaryWritable, secondaryWritable;
    }

    /** Try the primary location, then the secondary one (followed by the note), then
        the console; never raises. */
    method Write(e: Entry)
      modifies this
      ensures primaryWritable == old(primaryWritable) && secondaryWritable == old(secondaryWritable)
      ensures State() == Deliver(old(State()), primaryWritable, secondaryWritable, e)
    {
      if primaryWritable {
        primary := primary + [e.text];
      } else if secondaryWritable {
        secondary := secondary + [e.text];
        secondary := secondary + [e.note];
      } else {
        console := console + [e.echo];
      }
    }

    /** An append to the primary location only, with no failover: the caller sees
        the failure (`raised`) when the location does not accept writes. */
    method AppendPrimary(text: string) returns (raised: bool)
      modifies this
      ensures primaryWritable == old(primaryWritable) && secondaryWritable == old(secondaryWritable)
      ensures raised <==> !primaryWritable
      ensures State() == if raised then old(State()) else old(State()).(primary := old(primary) + [text])
    {
      raised := !primaryWritable;
      if !raised {
        primary := primary + [text];
      }
    }
  }
}
