/**
 The relay of one direction of a connection (tcpsplit/split.c, half_duplex): receive into sixteen pages
 that are used again in every round, send what was received, until one of the two calls fails.
 What the two sockets do is a script, one entry a round.
 */
module Relay {
  import opened KeyOrder

  const PAGE_SIZE: nat := 4096
  const VEC_SZ: nat := 16

  /** What kernel_recvmsg does: some bytes, at most what the pages hold, or the end or an error. */
  datatype Recv = Data(bytes: seq<Byte>) | Stop(rc: int)

  /** One round; send is what kernel_sendmsg returns: how many bytes it took, or an error. */
  datatype Round = Round(recv: Recv, send: int)

  predicate RoundOk(r: Round) {
    match r.recv
    case Data(bytes) => 0 < |bytes| <= PAGE_SIZE * VEC_SZ && r.send <= |bytes|
    case Stop(rc) => rc <= 0
  }

  ghost predicate ScriptOk(rs: seq<Round>) { forall i :: 0 <= i < |rs| ==> RoundOk(rs[i]) }

  // ---------------------------------------------------------------- the pages

  type Page = p: seq<Byte> | |p| == 4096 witness seq(4096, i => 0)

  /** The pages after data has been received into them: what is not overwritten is left from before. */
  function Scatter(pages: seq<Page>, data: seq<Byte>): (r: seq<Page>)
    ensures |r| == |pages|
  {
    if pages == [] then []
    else
      var n := if |data| < PAGE_SIZE then |data| else PAGE_SIZE;
      [data[..n] + pages[0][n..]] + Scatter(pages[1..], data[n..])
  }

  /** The first n bytes of the pages. */
  function Gather(pages: seq<Page>, n: nat): seq<Byte> {
    if pages == [] || n == 0 then []
    else if n <= PAGE_SIZE then pages[0][..n]
    else pages[0] + Gather(pages[1..], n - PAGE_SIZE)
  }

  /** Whatever the pages held, gathering what was scattered gives it back. */
  lemma {:induction false} GatherScatter(pages: seq<Page>, data: seq<Byte>)
    requires |data| <= PAGE_SIZE * |pages|
    ensures Gather(Scatter(pages, data), |data|) == data
  {
    if pages != [] && data != [] {
      if |data| <= PAGE_SIZE {
        assert (data + pages[0][|data|..])[..|data|] == data;
      } else {
        GatherScatter(pages[1..], data[PAGE_SIZE..]);
        assert data == data[..PAGE_SIZE] + data[PAGE_SIZE..];
      }
    }
  }

  // ---------------------------------------------------------------- the loop

  /** A round after which the loop goes on. */
  predicate Continues(r: Round) { r.recv.Data? && r.send > 0 }

  function Received(rs: seq<Round>): seq<Byte> {
    if rs == [] || rs[0].recv.Stop? then []
    else rs[0].recv.bytes + if Continues(rs[0]) then Received(rs[1..]) else []
  }

  function Delivered(rs: seq<Round>): seq<Byte>
    requires ScriptOk(rs)
  {
    if rs == [] || !Continues(rs[0]) then []
    else
      assert RoundOk(rs[0]);
      rs[0].recv.bytes[..rs[0].send] + Delivered(rs[1..])
  }

  function Ended(rs: seq<Round>): bool { rs != [] && (!Continues(rs[0]) || Ended(rs[1..])) }

  /** The result of the call that ended the loop. */
  function Result(rs: seq<Round>): int
    requires Ended(rs)
  {
    if rs[0].recv.Stop? then rs[0].recv.rc else if rs[0].send <= 0 then rs[0].send else Result(rs[1..])
  }

  /** A call of the round fails or meets the end. */
  predicate Stops(r: Round) { r.recv.Stop? || r.send <= 0 }

  /** All bytes of rounds that received some, and all that their sends took. */
  function Bytes(rs: seq<Round>): seq<Byte>
    requires forall i :: 0 <= i < |rs| ==> !Stops(rs[i])
  {
    var n := |rs|;
    if n == 0 then []
    else
      assert !Stops(rs[n - 1]);
      Bytes(rs[..n - 1]) + rs[n - 1].recv.bytes
  }

  function Sent(rs: seq<Round>): seq<Byte>
    requires ScriptOk(rs) && forall i :: 0 <= i < |rs| ==> !Stops(rs[i])
  {
    var n := |rs|;
    if n == 0 then []
    else
      assert RoundOk(rs[n - 1]) && !Stops(rs[n - 1]);
      Sent(rs[..n - 1]) + rs[n - 1].recv.bytes[..rs[n - 1].send]
  }

  lemma {:induction false} BytesCons(rs: seq<Round>)
    requires rs != [] && ScriptOk(rs) && forall i :: 0 <= i < |rs| ==> !Stops(rs[i])
    ensures !Stops(rs[0]) && 0 < rs[0].send <= |rs[0].recv.bytes|
    ensures Bytes(rs) == rs[0].recv.bytes + Bytes(rs[1..])
    ensures Sent(rs) == rs[0].recv.bytes[..rs[0].send] + Sent(rs[1..])
    decreases |rs|
  {
    assert RoundOk(rs[0]) && !Stops(rs[0]);
    var n := |rs| - 1;
    if n == 0 {
      assert rs[..n] == [] == rs[1..];
    } else {
      BytesCons(rs[..n]);
      assert rs[..n][1..] == rs[1..][..n - 1];
      assert rs[1..][n - 1] == rs[n];
    }
  }

  /** The loop ends in the first round with a call that fails or meets the end, and with its result; what it
      has received by then is all bytes of the rounds so far, and what it has delivered is what the sends
      before have taken. */
  lemma {:induction false} EndsAtFirst(rs: seq<Round>, i: nat)
    requires ScriptOk(rs) && i <= |rs| && (forall j :: 0 <= j < i ==> !Stops(rs[j])) && (i < |rs| ==> Stops(rs[i]))
    ensures Ended(rs) <==> i < |rs|
    ensures i < |rs| ==> Result(rs) == if rs[i].recv.Stop? then rs[i].recv.rc else rs[i].send
    ensures Received(rs) == Bytes(rs[..i]) + if i < |rs| && rs[i].recv.Data? then rs[i].recv.bytes else []
    ensures ScriptOk(rs[..i]) && Delivered(rs) == Sent(rs[..i])
    decreases i
  {
    if i > 0 {
      EndsAtFirst(rs[1..], i - 1);
      BytesCons(rs[..i]);
      assert rs[..i][1..] == rs[1..][..i - 1];
    }
  }

  /** kernel_recvmsg into the pages */
  method Receive(kvec: array<Page>, data: seq<Byte>)
    modifies kvec
    ensures kvec[..] == Scatter(old(kvec[..]), data)
    ensures |data| <= PAGE_SIZE * kvec.Length ==> Gather(kvec[..], |data|) == data
  {
    if |data| <= PAGE_SIZE * kvec.Length {
      GatherScatter(kvec[..], data);
    }
    var filled := Scatter(kvec[..], data);
    forall k | 0 <= k < kvec.Length {
      kvec[k] := filled[k];
    }
    assert kvec[..] == filled;
  }

  /** rest is what is still to do of rs when so much has been received and delivered. */
  ghost predicate Rest(rs: seq<Round>, rest: seq<Round>, bytes: nat, delivered: seq<Byte>) {
    && ScriptOk(rs) && ScriptOk(rest) && Ended(rs) == Ended(rest) && (Ended(rs) ==> Result(rs) == Result(rest))
    && |Received(rs)| == bytes + |Received(rest)| && Delivered(rs) == delivered + Delivered(rest)
  }

  lemma OneRound(rs: seq<Round>, i: nat, bytes: nat, delivered: seq<Byte>)
    requires i < |rs| && Rest(rs, rs[i..], bytes, delivered)
    ensures var r := rs[i];
            && RoundOk(r)
            && (Continues(r) ==> Rest(rs, rs[i + 1..], bytes + |r.recv.bytes|, delivered + r.recv.bytes[..r.send]))
            && (!Continues(r) ==> Ended(rs) && Result(rs) == (if r.recv.Stop? then r.recv.rc else r.send) && Delivered(rs) == delivered && |Received(rs)| == bytes + if r.recv.Data? then |r.recv.bytes| else 0)
  {
    var r := rs[i];
    assert RoundOk(r);
    assert rs[i..][0] == r && rs[i..][1..] == rs[i + 1..];
  }

  /** half_duplex with the pages kvec, for as many rounds as the script has.  delivered is what the
      sending socket has taken, puts counts the calls of put_qp. */
  method HalfDuplex(rounds: seq<Round>, kvec: array<Page>) returns (rc: int, bytes: nat, delivered: seq<Byte>, puts: nat)
    requires ScriptOk(rounds) && kvec.Length == VEC_SZ
    modifies kvec
    ensures bytes == |Received(rounds)| && delivered == Delivered(rounds)
    ensures puts == if Ended(rounds) then 1 else 0
    ensures Ended(rounds) ==> rc == Result(rounds) <= 0
  {
    bytes, delivered, puts, rc := 0, [], 0, 1;
    var i := 0;
    while i < |rounds|
      invariant 0 <= i <= |rounds| && puts == 0
      invariant Rest(rounds, rounds[i..], bytes, delivered)
    {
      var round := rounds[i];
      assert RoundOk(round);
      OneRound(rounds, i, bytes, delivered);
      if round.recv.Stop? {
        rc := round.recv.rc;
        puts := puts + 1;
        return;
      }
      Receive(kvec, round.recv.bytes);
      rc := |round.recv.bytes|;
      bytes := bytes + rc;
      var chunk := Gather(kvec[..], rc);
      rc := round.send;
      if rc <= 0 {
        puts := puts + 1;
        return;
      }
      delivered := delivered + chunk[..rc];
      i := i + 1;
    }
  }

  // ---------------------------------------------------------------- what reaches the other side

  /** No send took only a part of its chunk. */
  predicate NeverPartial(rs: seq<Round>) {
    rs == [] || !Continues(rs[0]) || (rs[0].send == |rs[0].recv.bytes| && NeverPartial(rs[1..]))
  }

  /** The chunk whose send failed, if that is how the loop ended. */
  function Failed(rs: seq<Round>): seq<Byte> {
    if rs == [] || rs[0].recv.Stop? then []
    else if !Continues(rs[0]) then rs[0].recv.bytes
    else Failed(rs[1..])
  }

  /** When every send takes its whole chunk or fails, what was delivered is what was received without the
      chunk whose send failed ... */
  lemma {:induction false} StreamPreserved(rs: seq<Round>)
    requires ScriptOk(rs) && NeverPartial(rs)
    ensures Received(rs) == Delivered(rs) + Failed(rs)
  {
    if rs != [] && Continues(rs[0]) {
      assert RoundOk(rs[0]);
      StreamPreserved(rs[1..]);
    }
  }

  lemma {:induction false} LengthLost(rs: seq<Round>)
    requires ScriptOk(rs)
    ensures |Delivered(rs)| + |Failed(rs)| <= |Received(rs)|
    ensures |Delivered(rs)| + |Failed(rs)| == |Received(rs)| ==> NeverPartial(rs)
  {
    if rs != [] && Continues(rs[0]) {
      assert RoundOk(rs[0]);
      LengthLost(rs[1..]);
    }
  }

  /** ... and in no other case: the rest of a chunk that was sent in part is never sent. */
  lemma StreamPreservedIff(rs: seq<Round>)
    requires ScriptOk(rs)
    ensures Received(rs) == Delivered(rs) + Failed(rs) <==> NeverPartial(rs)
  {
    LengthLost(rs);
    if NeverPartial(rs) {
      StreamPreserved(rs);
    }
  }

  lemma {:induction false} FailedIsLast(rs: seq<Round>)
    requires ScriptOk(rs) && Failed(rs) != []
    ensures exists i :: 0 <= i < |rs| && rs[i].recv == Data(Failed(rs)) && rs[i].send <= 0 && Ended(rs)
  {
    if !Continues(rs[0]) {
      assert rs[0].recv == Data(Failed(rs));
    } else {
      FailedIsLast(rs[1..]);
      var i :| 0 <= i < |rs[1..]| && rs[1..][i].recv == Data(Failed(rs)) && rs[1..][i].send <= 0;
      assert rs[i + 1].recv == Data(Failed(rs));
    }
  }

  /** A partial send in the middle: the bytes that arrive are not a prefix of those sent. */
  lemma PartialSendLosesBytes()
    ensures var rs := [Round(Data([1, 2]), 1), Round(Data([3]), 1)];
            ScriptOk(rs) && Received(rs) == [1, 2, 3] && Delivered(rs) == [1, 3] && !(Delivered(rs) <= Received(rs))
  {
    var last := [Round(Data([3]), 1)];
    var rs := [Round(Data([1, 2]), 1), Round(Data([3]), 1)];
    assert rs[1..] == last && last[1..] == [];
    assert Received(last) == [3] && Delivered(last) == [3];
    assert Received(rs) == [1, 2, 3] && Delivered(rs) == [1, 3];
    assert Received(rs)[1] == 2 && Delivered(rs)[1] == 3;
  }
}
