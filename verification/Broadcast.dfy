/**
 What the queue is for, said without rings, offsets or counters: an append-only
 feed. Entries are published in an order, resolved later to a message or to a gap,
 and every subscriber consumes the entries published after it subscribed, in that
 order, never past an unresolved one.
 */
module Broadcast {

  type Byte = x: nat | x < 256
  type Bytes = seq<Byte>

  datatype Entry = Unresolved | Message(body: Bytes) | Gap

  datatype Subscriber = Subscriber(from: nat, upto: nat, inbox: seq<Bytes>)

  datatype Feed = Feed(entries: seq<Entry>, subscribers: seq<Subscriber>)

  datatype FeedStep =
    | Nothing
    | Publish
    | Resolve(i: nat, entry: Entry)
    | Subscribe
    | Consume(r: nat)

  const EMPTY_FEED := Feed([], [])

  /** The message bodies among entries[a..b], in order. */
  function Bodies(entries: seq<Entry>, a: nat, b: nat): seq<Bytes>
    requires b <= |entries|
  {
    if b <= a then []
    else Bodies(entries, a, b - 1)
         + (if entries[b - 1].Message? then [entries[b - 1].body] else [])
  }

  /** A resolved entry never changes; a subscriber waits at an unresolved one. */
  predicate Allowed(f: Feed, step: FeedStep) {
    match step
    case Resolve(i, entry) => i < |f.entries| && f.entries[i] == Unresolved && entry != Unresolved
    case Consume(r) =>
      && r < |f.subscribers|
      && f.subscribers[r].upto < |f.entries| && f.entries[f.subscribers[r].upto] != Unresolved
    case _ => true
  }

  function Take(f: Feed, step: FeedStep): Feed
    requires Allowed(f, step)
  {
    match step
    case Nothing => f
    case Publish => f.(entries := f.entries + [Unresolved])
    case Resolve(i, entry) => f.(entries := f.entries[i := entry])
    case Subscribe => f.(subscribers := f.subscribers + [Subscriber(|f.entries|, |f.entries|, [])])
    case Consume(r) =>
      var sub := f.subscribers[r];
      var entry := f.entries[sub.upto];
      var inbox := if entry.Message? then sub.inbox + [entry.body] else sub.inbox;
      f.(subscribers := f.subscribers[r := Subscriber(sub.from, sub.upto + 1, inbox)])
  }

  ghost predicate FeedRun(f: Feed, steps: seq<FeedStep>)
    decreases |steps|
  {
    steps == [] || (Allowed(f, steps[0]) && FeedRun(Take(f, steps[0]), steps[1..]))
  }

  ghost function FeedAfter(f: Feed, steps: seq<FeedStep>): Feed
    requires FeedRun(f, steps)
    decreases |steps|
  {
    if steps == [] then f else FeedAfter(Take(f, steps[0]), steps[1..])
  }

  /** Every subscriber holds exactly the messages published since it subscribed, up to
      its own point, and nothing before that point is still unresolved. */
  ghost predicate Faithful(f: Feed) {
    forall r :: 0 <= r < |f.subscribers| ==>
      && f.subscribers[r].from <= f.subscribers[r].upto <= |f.entries|
      && (forall i :: f.subscribers[r].from <= i < f.subscribers[r].upto ==> f.entries[i] != Unresolved)
      && f.subscribers[r].inbox == Bodies(f.entries, f.subscribers[r].from, f.subscribers[r].upto)
  }

  lemma {:induction false} BodiesFrame(e: seq<Entry>, e': seq<Entry>, a: nat, b: nat)
    requires b <= |e| && b <= |e'|
    requires forall i :: a <= i < b ==> e[i] == e'[i]
    ensures Bodies(e, a, b) == Bodies(e', a, b)
  {
    if a < b {
      BodiesFrame(e, e', a, b - 1);
    }
  }

  lemma {:induction false} BodiesSplit(e: seq<Entry>, a: nat, b: nat, c: nat)
    requires a <= b <= c <= |e|
    ensures Bodies(e, a, c) == Bodies(e, a, b) + Bodies(e, b, c)
  {
    if b < c {
      BodiesSplit(e, a, b, c - 1);
    }
  }

  lemma FaithfulStep(f: Feed, step: FeedStep)
    requires Faithful(f) && Allowed(f, step)
    ensures Faithful(Take(f, step))
  {
    var f' := Take(f, step);
    forall r | 0 <= r < |f.subscribers|
      ensures Bodies(f'.entries, f.subscribers[r].from, f.subscribers[r].upto)
              == Bodies(f.entries, f.subscribers[r].from, f.subscribers[r].upto)
    {
      BodiesFrame(f.entries, f'.entries, f.subscribers[r].from, f.subscribers[r].upto);
    }
  }

  /** Every run of the feed is faithful, and takes back nothing a subscriber has. */
  lemma {:induction false} FaithfulRun(f: Feed, steps: seq<FeedStep>)
    requires Faithful(f) && FeedRun(f, steps)
    ensures var f' := FeedAfter(f, steps);
      && Faithful(f')
      && |f.subscribers| <= |f'.subscribers|
      && forall r :: 0 <= r < |f.subscribers| ==> f.subscribers[r].inbox <= f'.subscribers[r].inbox
    decreases |steps|
  {
    if steps != [] {
      FaithfulStep(f, steps[0]);
      FaithfulRun(Take(f, steps[0]), steps[1..]);
    }
  }

  /** Any two subscribers agree: from the point where the later one joined, what one
      has received is a prefix of what the other has. */
  lemma SubscribersAgree(f: Feed, early: nat, late: nat)
    requires Faithful(f) && early < |f.subscribers| && late < |f.subscribers|
    requires f.subscribers[early].from <= f.subscribers[late].from <= f.subscribers[early].upto
    ensures var e := f.subscribers[early]; var l := f.subscribers[late];
      var missed := Bodies(f.entries, e.from, l.from);
      && missed <= e.inbox
      && (e.inbox[|missed|..] <= l.inbox || l.inbox <= e.inbox[|missed|..])
  {
    var e, l := f.subscribers[early], f.subscribers[late];
    BodiesSplit(f.entries, e.from, l.from, e.upto);
    if e.upto <= l.upto {
      BodiesSplit(f.entries, l.from, e.upto, l.upto);
    } else {
      BodiesSplit(f.entries, l.from, l.upto, e.upto);
    }
  }
}
