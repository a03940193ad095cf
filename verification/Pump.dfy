/** The agent's pump: bytes read from a terminal into one reused buffer, sent on over a data
    channel that keeps the arrays it is given. */
module Pump {
  import opened Wire

  type Byte = b: int | 0 <= b < 256

  const BUFFER := 4096

  /** Why a session is closed: by its pump, or for some other reason. */
  datatype Reason = PtyEnded | SendFailed | Elsewhere(reason: string)

  /** What a read finds: bytes, possibly together with an error. */
  datatype Delivery = Delivery(data: seq<Byte>, fails: bool)

  /** What can be read before the first error, with the bytes that come together with it. */
  function Readable(script: seq<Delivery>): seq<Byte> {
    if script == [] then []
    else script[0].data + if script[0].fails then [] else Readable(script[1..])
  }

  /** Every byte the terminal holds, errors or not. */
  function Held(script: seq<Delivery>): seq<Byte> {
    if script == [] then [] else script[0].data + Held(script[1..])
  }

  function Size(script: seq<Delivery>): nat {
    if script == [] then 0 else |script[0].data| + 1 + Size(script[1..])
  }

  /** What is left once n bytes of the first delivery have been read. */
  function Left(script: seq<Delivery>, n: nat): (left: seq<Delivery>)
    requires script != [] && n <= |script[0].data|
    ensures left != [] && left[0] == Delivery(script[0].data[n..], script[0].fails) && left[1..] == script[1..]
  {
    [Delivery(script[0].data[n..], script[0].fails)] + script[1..]
  }

  lemma Rejoined(a: seq<Byte>, n: nat, b: seq<Byte>)
    requires n <= |a|
    ensures a + b == a[..n] + (a[n..] + b)
  {
  }

  /** Reading part of a delivery leaves the rest of it to be read. */
  lemma PartRead(script: seq<Delivery>, n: nat)
    requires script != [] && 0 < n <= |script[0].data|
    ensures Readable(script) == script[0].data[..n] + Readable(Left(script, n))
    ensures Held(script) == script[0].data[..n] + Held(Left(script, n))
    ensures Size(Left(script, n)) < Size(script)
  {
    var tail := if script[0].fails then [] else Readable(script[1..]);
    var left := Left(script, n);
    Rejoined(script[0].data, n, tail);
    Rejoined(script[0].data, n, Held(script[1..]));
    assert Held(left) == left[0].data + Held(script[1..]);
    assert Readable(script) == script[0].data + tail;
    assert Readable(left) == left[0].data + tail;
    assert Size(left) == |left[0].data| + 1 + Size(script[1..]);
  }

  lemma WholeRead(script: seq<Delivery>)
    requires script != []
    ensures Readable(script) == script[0].data + if script[0].fails then [] else Readable(script[1..])
    ensures Held(script) == script[0].data + Held(script[1..])
    ensures Size(script[1..]) < Size(script)
  {
  }

  /** The terminal: what its reads will find, the last being the end of the stream. */
  class Pty {
    var script: seq<Delivery>
    var open: bool

    constructor (script: seq<Delivery>)
      ensures this.script == script && open
    {
      this.script := script;
      open := true;
    }

    /** Reads what is there, as far as it fits; the rest of the buffer may be overwritten. */
    method Read(buf: array<Byte>) returns (n: nat, fails: bool)
      requires buf.Length > 0
      modifies this`script, buf
      ensures n <= buf.Length
      ensures Readable(old(script)) == buf[..n] + if fails then [] else Readable(script)
      ensures Held(old(script)) == buf[..n] + Held(script)
      ensures !fails ==> Size(script) < Size(old(script))
    {
      if script == [] {
        return 0, true;
      }
      hide *;
      var d := script[0];
      n := if |d.data| <= buf.Length then |d.data| else buf.Length;
      forall i | 0 <= i < n {
        buf[i] := d.data[i];
      }
      assert buf[..n] == d.data[..n];
      if n == |d.data| {
        WholeRead(script);
        assert d.data[..n] == d.data;
        script := script[1..];
        return n, d.fails;
      }
      PartRead(script, n);
      script := Left(script, n);
      return n, false;
    }
  }

  /** The data channel keeps every array it accepts, and decides attempt by attempt which it does. */
  class DataChannel {
    var kept: seq<array<Byte>>
    var attempts: nat
    const accepts: nat -> bool

    constructor (accepts: nat -> bool)
      ensures kept == [] && attempts == 0 && this.accepts == accepts
    {
      kept, attempts := [], 0;
      this.accepts := accepts;
    }

    method Send(chunk: array<Byte>) returns (ok: bool)
      modifies this
      ensures ok == accepts(old(attempts)) && attempts == old(attempts) + 1
      ensures kept == if ok then old(kept) + [chunk] else old(kept)
    {
      ok := accepts(attempts);
      attempts := attempts + 1;
      if ok {
        kept := kept + [chunk];
      }
    }
  }

  function Joined(chunks: seq<seq<Byte>>): seq<Byte> {
    if chunks == [] then [] else Joined(chunks[..|chunks| - 1]) + chunks[|chunks| - 1]
  }

  /** What has been sent, what is lost and what lies ahead make up the whole. */
  predicate Covers(values: seq<seq<Byte>>, lost: seq<Byte>, ahead: seq<Byte>, whole: seq<Byte>) {
    Joined(values) + (lost + ahead) == whole
  }

  /** What has been sent, with what is lost, is the beginning of the whole, and if nothing is lost, the whole. */
  predicate SentAll(values: seq<seq<Byte>>, lost: seq<Byte>, whole: seq<Byte>) {
    Joined(values) + lost <= whole && (lost == [] ==> Joined(values) == whole)
  }

  /** A chunk that is read is then sent, or lost; an empty one is neither. */
  lemma OneMore(values: seq<seq<Byte>>, ahead: seq<Byte>, chunk: seq<Byte>, rest: seq<Byte>, whole: seq<Byte>)
    requires Covers(values, [], ahead, whole) && ahead == chunk + rest
    ensures Covers(values + [chunk], [], rest, whole) && Covers(values, chunk, rest, whole)
    ensures if chunk == [] then Covers(values, [], rest, whole) else SentAll(values, chunk, whole)
  {
    assert (values + [chunk])[..|values|] == values;
    assert [] + ahead == ahead && [] + rest == rest;
    assert Joined(values) + (chunk + rest) == (Joined(values) + chunk) + rest;
  }

  lemma NothingAhead(values: seq<seq<Byte>>, whole: seq<Byte>)
    requires Covers(values, [], [], whole)
    ensures SentAll(values, [], whole)
  {
  }

  lemma NothingSent(whole: seq<Byte>)
    ensures Covers([], [], whole, whole)
  {
  }

  /** A fresh array with the first bytes of the buffer. */
  method CopyOf(buf: array<Byte>, n: nat) returns (chunk: array<Byte>)
    requires n <= buf.Length
    ensures fresh(chunk) && chunk[..] == buf[..n]
  {
    chunk := new Byte[n];
    forall i | 0 <= i < n {
      chunk[i] := buf[i];
    }
  }

  class AgentSession {
    const pty: Pty
    const shellDC: DataChannel
    /** Why the session was closed, if it was: the first reason stays. */
    var closed: Option<Reason>

    constructor (pty: Pty, shellDC: DataChannel)
      ensures this.pty == pty && this.shellDC == shellDC && closed == None
    {
      this.pty := pty;
      this.shellDC := shellDC;
      closed := None;
    }

    method Close(reason: Reason)
      modifies this`closed, pty`open
      ensures closed == if old(closed) == None then Some(reason) else old(closed)
      ensures old(closed) == None ==> !pty.open
      ensures old(closed) != None ==> pty.open == old(pty.open)
    {
      if closed == None {
        pty.open := false;
        closed := Some(reason);
      }
    }

    /** The channel has accepted these chunks, in this order, and refused at most the next: the
        arrays it keeps hold them. */
    ghost predicate Sent(values: seq<seq<Byte>>, refused: bool)
      reads shellDC, shellDC.kept
    {
      |shellDC.kept| == |values| && shellDC.attempts == |values| + (if refused then 1 else 0)
      && (forall i :: 0 <= i < |values| ==> shellDC.kept[i][..] == values[i])
      && (forall i :: 0 <= i < |values| ==> 1 <= |values[i]| <= 4096 && shellDC.accepts(i))
      && (refused ==> !shellDC.accepts(|values|))
    }

    /** Sends a copy of the first bytes of the buffer. */
    method SendCopy(buf: array<Byte>, n: nat, ghost values: seq<seq<Byte>>) returns (ok: bool)
      requires 1 <= n <= buf.Length == BUFFER && Sent(values, false)
      modifies shellDC
      ensures if ok then Sent(values + [buf[..n]], false) else Sent(values, true)
      ensures forall c :: c in shellDC.kept ==> c in old(shellDC.kept) || fresh(c)
    {
      var chunk := CopyOf(buf, n);
      ok := shellDC.Send(chunk);
    }

    /** One turn of the pump's loop, up to the closing: it is over after a refused send, or a failed read. */
    method Turn(buf: array<Byte>, ghost values: seq<seq<Byte>>, ghost whole: seq<Byte>, ghost held: seq<Byte>)
      returns (over: bool, refused: bool, ghost sent: seq<seq<Byte>>, ghost lost: seq<Byte>)
      requires buf.Length == BUFFER && buf !in shellDC.kept && Sent(values, false)
      requires Covers(values, [], Readable(pty.script), whole) && Covers(values, [], Held(pty.script), held)
      modifies pty`script, shellDC, buf
      ensures forall c :: c in shellDC.kept ==> c in old(shellDC.kept) || fresh(c)
      ensures Sent(sent, refused) && (refused <==> lost != []) && |lost| <= BUFFER && (refused ==> over)
      ensures Covers(sent, lost, Held(pty.script), held)
      ensures if over then SentAll(sent, lost, whole) else Covers(sent, [], Readable(pty.script), whole)
      ensures !over ==> Size(pty.script) < Size(old(pty.script))
    {
      assert buf.Length > 0;
      hide *;
      ghost var ahead, before := Readable(pty.script), Held(pty.script);
      var n, fails := pty.Read(buf);
      assert Sent(values, false);
      ghost var chunk, rest := buf[..n], if fails then [] else Readable(pty.script);
      OneMore(values, ahead, chunk, rest, whole);
      OneMore(values, before, chunk, Held(pty.script), held);
      sent := values;
      if n > 0 {
        var ok := SendCopy(buf, n, values);
        if !ok {
          return true, true, values, chunk;
        }
        sent := values + [chunk];
      }
      if fails {
        NothingAhead(sent, whole);
      }
      return fails, false, sent, [];
    }

    /** Sends everything that can be read, in order, and the channel's arrays still hold it at the
        end, whatever was read into the buffer since. If a send fails, what was read for it is lost
        and nothing more is read: all that the terminal held was sent, or is lost, or is still there. */
    method PumpPTYToDC() returns (ghost values: seq<seq<Byte>>, ghost lost: seq<Byte>)
      requires shellDC.attempts == 0 && shellDC.kept == []
      modifies this`closed, pty, shellDC
      ensures Sent(values, lost != []) && |lost| <= 4096
      ensures SentAll(values, lost, Readable(old(pty.script)))
      ensures Covers(values, lost, Held(pty.script), Held(old(pty.script)))
      ensures closed == if old(closed).Some? then old(closed) else Some(if lost == [] then PtyEnded else SendFailed)
    {
      ghost var whole, held := Readable(pty.script), Held(pty.script);
      NothingSent(whole);
      NothingSent(held);
      assert Sent([], false);
      hide *;
      var buf := new Byte[BUFFER];
      values, lost := [], [];
      var over, refused := false, false;
      while !over
        invariant buf !in shellDC.kept && fresh(buf) && closed == old(closed)
        invariant Sent(values, refused) && (refused <==> lost != []) && |lost| <= BUFFER && (refused ==> over)
        invariant Covers(values, lost, Held(pty.script), held)
        invariant if over then SentAll(values, lost, whole) else Covers(values, [], Readable(pty.script), whole)
        decreases !over, Size(pty.script)
      {
        over, refused, values, lost := Turn(buf, values, whole, held);
      }
      Close(if refused then SendFailed else PtyEnded);
    }
  }
}
