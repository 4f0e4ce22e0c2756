/** What the server writes to its clients' connections. Every conn.Write call is one Write
    in a single log, in the order the calls happen; a connection's outbox is the part of that
    log addressed to it. */
module Wire {

  /** Identity of one accepted connection and of the geophone that owns it. */
  type Handle = nat

  /** One conn.Write call: the text written and the connection it went to. */
  datatype Write = Write(conn: Handle, text: string)

  /** Everything written to connection h, in the order it was written. */
  function Outbox(wire: seq<Write>, h: Handle): seq<string> {
    if wire == [] then []
    else (if wire[0].conn == h then [wire[0].text] else []) + Outbox(wire[1..], h)
  }

  /** Number of times x occurs in s. */
  function Count<T(==)>(s: seq<T>, x: T): nat {
    if s == [] then 0 else (if s[0] == x then 1 else 0) + Count(s[1..], x)
  }

  /** n copies of x. */
  function Repeat<T>(x: T, n: nat): (r: seq<T>)
    ensures |r| == n
  {
    if n == 0 then [] else [x] + Repeat(x, n - 1)
  }

  /** The messages ms as seen by a connection that sits k times in a member list:
      each message k times over, in order. */
  function Stutter<T>(ms: seq<T>, k: nat): seq<T> {
    if ms == [] then [] else Repeat(ms[0], k) + Stutter(ms[1..], k)
  }

  /** The writes of one fan-out loop over receivers: the i-th write carries message to
      the i-th receiver. */
  function FanOut(receivers: seq<Handle>, message: string): (ws: seq<Write>)
    ensures |ws| == |receivers|
    ensures forall i :: 0 <= i < |ws| ==> ws[i] == Write(receivers[i], message)
  {
    if receivers == [] then [] else [Write(receivers[0], message)] + FanOut(receivers[1..], message)
  }

  /** The writes of several fan-outs to the same receivers, one message after another. */
  function Broadcasts(receivers: seq<Handle>, messages: seq<string>): seq<Write> {
    if messages == [] then []
    else FanOut(receivers, messages[0]) + Broadcasts(receivers, messages[1..])
  }

  lemma AppendAssociative<T>(a: seq<T>, b: seq<T>, c: seq<T>)
    ensures a + b + c == a + (b + c)
  {
  }

  /** A connection's outbox over two stretches of the log is the two outboxes joined. */
  lemma {:induction false} OutboxAppend(a: seq<Write>, b: seq<Write>, h: Handle)
    ensures Outbox(a + b, h) == Outbox(a, h) + Outbox(b, h)
    decreases |a|
  {
    if a == [] {
      assert a + b == b;
    } else {
      assert (a + b)[1..] == a[1..] + b;
      OutboxAppend(a[1..], b, h);
    }
  }

  lemma {:induction false} CountAppend<T>(a: seq<T>, b: seq<T>, x: T)
    ensures Count(a + b, x) == Count(a, x) + Count(b, x)
    decreases |a|
  {
    if a == [] {
      assert a + b == b;
    } else {
      assert (a + b)[1..] == a[1..] + b;
      CountAppend(a[1..], b, x);
    }
  }

  /** A connection receives one fan-out's message once per time it is a receiver, and
      nothing else from it. */
  lemma {:induction false} OutboxFanOut(receivers: seq<Handle>, message: string, h: Handle)
    ensures Outbox(FanOut(receivers, message), h) == Repeat(message, Count(receivers, h))
    decreases |receivers|
  {
    if receivers != [] {
      var ws := FanOut(receivers, message);
      assert ws[1..] == FanOut(receivers[1..], message);
      OutboxFanOut(receivers[1..], message, h);
    }
  }

  lemma {:induction false} RepeatOne<T>(x: T)
    ensures Repeat(x, 1) == [x]
  {
    assert Repeat(x, 0) == [];
  }

  lemma RepeatTwo<T>(x: T)
    ensures Repeat(x, 2) == [x, x]
  {
    RepeatOne(x);
  }

  /** A connection that is a receiver once sees exactly the messages, in order. */
  lemma {:induction false} StutterOnce<T>(ms: seq<T>)
    ensures Stutter(ms, 1) == ms
    decreases |ms|
  {
    if ms != [] {
      RepeatOne(ms[0]);
      StutterOnce(ms[1..]);
    }
  }

  /** A connection receives each of several broadcasts once per time it is a receiver. */
  lemma {:induction false} OutboxBroadcasts(receivers: seq<Handle>, messages: seq<string>, h: Handle)
    ensures Outbox(Broadcasts(receivers, messages), h) == Stutter(messages, Count(receivers, h))
    decreases |messages|
  {
    if messages != [] {
      OutboxAppend(FanOut(receivers, messages[0]), Broadcasts(receivers, messages[1..]), h);
      OutboxFanOut(receivers, messages[0], h);
      OutboxBroadcasts(receivers, messages[1..], h);
    }
  }

  /** Broadcasting one message and then several is broadcasting all of them. */
  lemma BroadcastsCons(receivers: seq<Handle>, m: string, ms: seq<string>)
    ensures Broadcasts(receivers, [m] + ms) == FanOut(receivers, m) + Broadcasts(receivers, ms)
  {
    assert ([m] + ms)[1..] == ms;
  }

  /** A connection nobody has written to has an empty outbox. */
  lemma {:induction false} OutboxUnwritten(wire: seq<Write>, h: Handle)
    requires forall i :: 0 <= i < |wire| ==> wire[i].conn != h
    ensures Outbox(wire, h) == []
    decreases |wire|
  {
    if wire != [] {
      OutboxUnwritten(wire[1..], h);
    }
  }

  lemma OutboxSingle(w: Write, h: Handle)
    ensures Outbox([w], h) == if w.conn == h then [w.text] else []
  {
    assert [w][1..] == [];
  }

  lemma {:induction false} CountPositive<T>(s: seq<T>, x: T)
    requires x in s
    ensures Count(s, x) > 0
    decreases |s|
  {
    if s[0] != x {
      CountPositive(s[1..], x);
    }
  }

  lemma {:induction false} CountAbsent<T>(s: seq<T>, x: T)
    requires x !in s
    ensures Count(s, x) == 0
    decreases |s|
  {
    if s != [] {
      CountAbsent(s[1..], x);
    }
  }
}
