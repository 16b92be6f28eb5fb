/** The streaming hash of packages/core/src/streaming-sha256.ts: a block buffer filled octet by
    octet, compressed in place, with a charge for every iteration. Every way of cutting a
    message into updates gives the one-shot digest.
    A clause `P == true` says P without unfolding it for the proof at hand. */
module StreamingSha256 {
  import opened Sha256

  class Account {
    var charges: nat

    constructor ()
      ensures charges == 0
    {
      charges := 0;
    }

    method Charge()
      modifies this
      ensures charges == old(charges) + 1
    {
      charges := charges + 1;
    }
  }

  /** The charges of one compression: the words, the schedule and the rounds. */
  const COMPRESSION: nat := 16 + 48 + 64

  function Blocks(n: nat): nat {
    n / 64
  }

  /** The whole blocks of a message, and what is left of it. */
  function Whole(m: seq<Byte>): (w: seq<Byte>)
    ensures |w| % 64 == 0 && |w| == |m| / 64 * 64
  {
    m[..|m| / 64 * 64]
  }

  function Rest(m: seq<Byte>): (r: seq<Byte>)
    ensures |r| == |m| % 64 && Whole(m) + r == m
  {
    m[|m| / 64 * 64..]
  }

  lemma Counts(n: nat)
    ensures n % 64 < 63 ==> (n + 1) / 64 == n / 64 && (n + 1) % 64 == n % 64 + 1
    ensures n % 64 == 63 ==> (n + 1) / 64 == n / 64 + 1 && (n + 1) % 64 == 0
  {
  }

  /** One more octet joins the rest. */
  lemma JoinsRest(m: seq<Byte>, x: Byte)
    requires |m| % 64 < 63
    ensures Whole(m + [x]) == Whole(m) && Rest(m + [x]) == Rest(m) + [x]
  {
    Counts(|m|);
  }

  /** One more octet completes a block. */
  lemma CompletesBlock<W>(m: seq<Byte>, x: Byte, o: Operations<W>, s: State<W>)
    requires Complete(o) && |m| % 64 == 63
    ensures Rest(m + [x]) == []
    ensures Hash(o, s, Whole(m + [x])) == Compress(o, Hash(o, s, Whole(m)), Rest(m) + [x])
  {
    Counts(|m|);
    assert Whole(m + [x]) == Whole(m) + (Rest(m) + [x]);
    HashAppend(o, s, Whole(m), Rest(m) + [x]);
    HashBlock(o, Hash(o, s, Whole(m)), Rest(m) + [x]);
  }

  // ------------------------------------------------------------------ the last blocks

  function LastOfOne(m: seq<Byte>): (b: seq<Byte>)
    requires |m| % 64 < 56
    ensures |b| == 64
  {
    Rest(m) + [0x80] + Zeros(55 - |Rest(m)|) + LengthBlock(|m| * 8)
  }

  function FirstOfTwo(m: seq<Byte>): (b: seq<Byte>)
    requires |m| % 64 >= 56
    ensures |b| == 64
  {
    Rest(m) + [0x80] + Zeros(63 - |Rest(m)|)
  }

  function LastOfTwo(m: seq<Byte>): (b: seq<Byte>)
    ensures |b| == 64
  {
    Zeros(56) + LengthBlock(|m| * 8)
  }

  /** With room for the length the rest and the padding are one block. */
  lemma OneTail<W>(m: seq<Byte>, o: Operations<W>, s: State<W>)
    requires Complete(o) && |m| % 64 < 56
    ensures Hash(o, s, Padded(m)) == Compress(o, Hash(o, s, Whole(m)), LastOfOne(m))
  {
    assert Padded(m) == Whole(m) + LastOfOne(m);
    HashAppend(o, s, Whole(m), LastOfOne(m));
    HashBlock(o, Hash(o, s, Whole(m)), LastOfOne(m));
  }

  /** Otherwise the length goes to a block of its own. */
  lemma TwoTails<W>(m: seq<Byte>, o: Operations<W>, s: State<W>)
    requires Complete(o) && |m| % 64 >= 56
    ensures Hash(o, s, Padded(m)) == Compress(o, Compress(o, Hash(o, s, Whole(m)), FirstOfTwo(m)), LastOfTwo(m))
  {
    var one, two := FirstOfTwo(m), LastOfTwo(m);
    assert Padded(m) == Whole(m) + (one + two);
    HashAppend(o, s, Whole(m), one + two);
    HashAppend(o, Hash(o, s, Whole(m)), one, two);
    HashBlock(o, Hash(o, s, Whole(m)), one);
    HashBlock(o, Compress(o, Hash(o, s, Whole(m)), one), two);
  }

  function StateOf<W>(w: seq<W>): State<W>
    requires |w| == 8
  {
    State(w[0], w[1], w[2], w[3], w[4], w[5], w[6], w[7])
  }

  lemma OneMore(before: seq<Byte>, bytes: seq<Byte>, i: nat)
    requires i < |bytes|
    ensures before + bytes[..i] + [bytes[i]] == before + bytes[..i + 1]
  {
  }

  class Hasher<W(0)> {
    const o: Operations<W>
    const account: Account
    const block: array<Byte>
    var state: seq<W>
    var blockLength: nat
    var byteLength: nat
    var finished: bool
    ghost var message: seq<Byte>

    /** The state is the hash of the whole blocks so far; the buffer holds the rest. */
    ghost predicate Buffered()
      reads this, block
    {
      && Complete(o) && block.Length == 64 && |state| == 8 && blockLength == |message| % 64
      && StateOf(state) == Hash(o, o.initial, Whole(message))
      && block[..blockLength] == Rest(message)
    }

    ghost predicate Valid()
      reads this, block
    {
      Buffered() && byteLength == |message|
    }

    constructor (o: Operations<W>, account: Account)
      requires Complete(o)
      ensures Valid() && message == [] && !finished && this.account == account && this.o == o && fresh(block)
    {
      this.o, this.account := o, account;
      block := new Byte[64](_ => 0);
      var s := o.initial;
      state := [s.a, s.b, s.c, s.d, s.e, s.f, s.g, s.h];
      blockLength, byteLength, finished, message := 0, 0, false, [];
    }

    // ---------------------------------------------------------------- compression

    method Words() returns (words: seq<W>)
      requires Complete(o) && block.Length == 64
      modifies account
      ensures |words| == 64 && forall t :: 0 <= t < 64 ==> words[t] == Schedule(o, block[..], t)
      ensures account.charges == old(account.charges) + 64
    {
      words := [];
      ghost var b := block[..];
      for t := 0 to 16
        invariant |words| == t && forall j :: 0 <= j < t ==> words[j] == Schedule(o, b, j)
        invariant account.charges == old(account.charges) + t
      {
        account.Charge();
        var offset := t * 4;
        words := words + [o.join(block[offset], block[offset + 1], block[offset + 2], block[offset + 3])];
      }
      for t := 16 to 64
        invariant |words| == t && forall j :: 0 <= j < t ==> words[j] == Schedule(o, b, j)
        invariant account.charges == old(account.charges) + t
      {
        account.Charge();
        words := words + [o.extend(words[t - 16], words[t - 15], words[t - 7], words[t - 2])];
      }
    }

    method RunRounds(start: State<W>) returns (s: State<W>)
      requires Complete(o) && block.Length == 64
      modifies account
      ensures s == Rounds(o, start, block[..], 64) && account.charges == old(account.charges) + COMPRESSION
    {
      var words := Words();
      ghost var bytes := block[..];
      s := start;
      for t := 0 to 64
        invariant s == Rounds(o, start, bytes, t)
        invariant account.charges == old(account.charges) + 64 + t
      {
        account.Charge();
        s := o.round(s, o.constants[t], words[t]);
      }
    }

    method CompressBlock()
      requires Complete(o) && block.Length == 64 && |state| == 8
      modifies this`state, account
      ensures |state| == 8 && StateOf(state) == Compress(o, old(StateOf(state)), block[..])
      ensures account.charges == old(account.charges) + COMPRESSION
    {
      ghost var start := StateOf(state);
      var s := RunRounds(StateOf(state));
      state := [o.plus(state[0], s.a), o.plus(state[1], s.b), o.plus(state[2], s.c), o.plus(state[3], s.d),
                o.plus(state[4], s.e), o.plus(state[5], s.f), o.plus(state[6], s.g), o.plus(state[7], s.h)];
      assert StateOf(state) == Add(o, start, s);
    }

    // ---------------------------------------------------------------- update

    method Take(x: Byte)
      requires Buffered()
      modifies this`state, this`blockLength, this`message, block, account
      ensures Buffered() == true && message == old(message) + [x]
      ensures account.charges == old(account.charges) + 1 + COMPRESSION * (Blocks(|message|) - Blocks(|old(message)|))
    {
      Counts(|message|);
      account.Charge();
      Store(x);
      if blockLength == 64 {
        Flush(x);
      } else {
        JoinsRest(message, x);
      }
      message := message + [x];
    }

    /** The buffer is full: its block is compressed and it starts anew. */
    method Flush(x: Byte)
      requires Complete(o) && block.Length == 64 && |state| == 8 && |message| % 64 == 63 && blockLength == 64
      requires block[..blockLength] == Rest(message) + [x] && StateOf(state) == Hash(o, o.initial, Whole(message))
      modifies this`state, this`blockLength, account
      ensures |state| == 8 && blockLength == 0 && Rest(message + [x]) == []
      ensures StateOf(state) == Hash(o, o.initial, Whole(message + [x]))
      ensures account.charges == old(account.charges) + COMPRESSION
    {
      CompletesBlock(message, x, o, o.initial);
      assert block[..] == block[..blockLength];
      CompressBlock();
      blockLength := 0;
    }

    /** The octet goes to the next place of the buffer. */
    method Store(x: Byte)
      requires block.Length == 64 && blockLength == |message| % 64 && block[..blockLength] == Rest(message)
      modifies this`blockLength, block
      ensures blockLength == old(blockLength) + 1 <= 64 && block[..blockLength] == Rest(message) + [x]
    {
      ghost var rest := Rest(message);
      block[blockLength] := x;
      blockLength := blockLength + 1;
      assert block[..blockLength] == rest + [x];
    }

    /** Appends the octets; after the digest the call throws and changes nothing. */
    method Update(bytes: seq<Byte>) returns (ok: bool)
      requires Valid()
      modifies this, block, account
      ensures ok <==> !old(finished)
      ensures ok ==> Valid() && message == old(message) + bytes && !finished
      ensures ok ==>
        account.charges == old(account.charges) + |bytes| + COMPRESSION * (Blocks(|message|) - Blocks(|old(message)|))
      ensures !ok ==> account.charges == old(account.charges) && message == old(message) && finished
    {
      if finished {
        return false;
      }
      ok := true;
      byteLength := byteLength + |bytes|;
      TakeAll(bytes);
    }

    method TakeAll(bytes: seq<Byte>)
      requires Buffered()
      modifies this`state, this`blockLength, this`message, block, account
      ensures Buffered() == true
      ensures message == old(message) + bytes
      ensures account.charges
           == old(account.charges) + |bytes| + COMPRESSION * (Blocks(|message|) - Blocks(|old(message)|))
    {
      ghost var before := message;
      for i := 0 to |bytes|
        invariant Buffered() == true
        invariant message == before + bytes[..i]
        invariant account.charges == old(account.charges) + i + COMPRESSION * (Blocks(|message|) - Blocks(|before|))
      {
        OneMore(before, bytes, i);
        Take(bytes[i]);
      }
      assert bytes[..|bytes|] == bytes;
    }

    // ---------------------------------------------------------------- digest

    method Fill(from: nat, to: nat)
      requires block.Length == 64 && from <= to <= 64
      modifies block
      ensures block[..] == old(block[..from]) + Zeros(to - from) + old(block[to..])
    {
      for i := from to to
        invariant forall k :: from <= k < i ==> block[k] == 0
        invariant forall k :: 0 <= k < 64 && !(from <= k < i) ==> block[k] == old(block[k])
      {
        block[i] := 0;
      }
    }

    method PutLength(bits: nat)
      requires block.Length == 64
      modifies block, account
      ensures block[..] == old(block[..56]) + LengthBlock(bits)
      ensures account.charges == old(account.charges) + 8
    {
      for i := 0 to 8
        invariant forall k :: 0 <= k < i ==> block[63 - k] == LengthOctet(bits, k)
        invariant forall k :: 0 <= k < 64 - i ==> block[k] == old(block[k])
        invariant account.charges == old(account.charges) + i
      {
        account.Charge();
        block[63 - i] := LengthOctet(bits, i);
      }
      forall k | 56 <= k < 64 ensures block[k] == LengthBlock(bits)[k - 56] {
        assert block[63 - (63 - k)] == LengthOctet(bits, 63 - k);
      }
    }

    method HexOf() returns (text: string)
      requires |state| == 8
      modifies account
      ensures text == Hex(o, StateOf(state)) && account.charges == old(account.charges) + 8
    {
      text := "";
      for i := 0 to 8
        invariant text == HexTo(o, state, i) && account.charges == old(account.charges) + i
      {
        account.Charge();
        text := text + o.hex(state[i]);
      }
      HexToAll(o, state);
    }

    /** The digest of everything hashed, once: the hasher is finished by it. */
    method DigestHex() returns (text: string)
      requires Valid() && !finished
      modifies this, block, account
      ensures finished && text == Digest(o, old(message)) && message == old(message)
      ensures account.charges == old(account.charges) + 16 + COMPRESSION * (if |message| % 64 < 56 then 1 else 2)
    {
      finished := true;
      if blockLength < 56 {
        FinishInOne();
      } else {
        FinishInTwo();
      }
      text := HexOf();
    }

    /** The buffer, as it stands before the digest. */
    ghost predicate Held()
      reads this, block
    {
      && block.Length == 64 && blockLength == |message| % 64 && byteLength == |message|
      && block[..blockLength] == Rest(message)
    }

    /** The one bit after the message. */
    method Mark()
      requires Held()
      modifies block
      ensures block[..blockLength + 1] == Rest(message) + [0x80]
    {
      ghost var rest := Rest(message);
      block[blockLength] := 0x80;
      assert block[..blockLength + 1] == rest + [0x80];
    }

    method PrepareOne()
      requires Held() && blockLength < 56
      modifies block, account
      ensures block[..] == LastOfOne(message) && account.charges == old(account.charges) + 8
    {
      Mark();
      Fill(blockLength + 1, 56);
      PutLength(byteLength * 8);
      assert block[..] == Rest(message) + [0x80] + Zeros(55 - blockLength) + LengthBlock(|message| * 8);
    }

    method FinishInOne()
      requires Valid() && blockLength < 56
      modifies this`state, block, account
      ensures |state| == 8 && StateOf(state) == Hash(o, o.initial, Padded(message))
      ensures account.charges == old(account.charges) + 8 + COMPRESSION
    {
      OneTail(message, o, o.initial);
      PrepareOne();
      CompressBlock();
    }

    method PrepareTwo()
      requires Held() && blockLength >= 56
      modifies block
      ensures block[..] == FirstOfTwo(message)
    {
      Mark();
      Fill(blockLength + 1, 64);
      assert block[..] == Rest(message) + [0x80] + Zeros(63 - blockLength);
    }

    method PrepareLast()
      requires block.Length == 64 && byteLength == |message|
      modifies block, account
      ensures block[..] == LastOfTwo(message) && account.charges == old(account.charges) + 8
    {
      Fill(0, 56);
      PutLength(byteLength * 8);
      assert block[..] == Zeros(56) + LengthBlock(|message| * 8);
    }

    method FinishInTwo()
      requires Valid() && blockLength >= 56
      modifies this`state, block, account
      ensures |state| == 8 && StateOf(state) == Hash(o, o.initial, Padded(message))
      ensures account.charges == old(account.charges) + 8 + 2 * COMPRESSION
    {
      ghost var m, whole, all := message, Hash(o, o.initial, Whole(message)), Hash(o, o.initial, Padded(message));
      TwoTails(m, o, o.initial);
      assert all == Compress(o, Compress(o, whole, FirstOfTwo(m)), LastOfTwo(m));
      FinishBoth(m, whole, all);
    }

    method FinishBoth(ghost m: seq<Byte>, ghost whole: State<W>, ghost all: State<W>)
      requires Held() && blockLength >= 56 && Complete(o) && |state| == 8 && m == message && StateOf(state) == whole
      requires all == Compress(o, Compress(o, whole, FirstOfTwo(m)), LastOfTwo(m))
      modifies this`state, block, account
      ensures |state| == 8 && StateOf(state) == all
      ensures account.charges == old(account.charges) + 8 + 2 * COMPRESSION
    {
      FinishFirst();
      FinishLast();
    }

    method FinishFirst()
      requires Held() && blockLength >= 56 && Complete(o) && |state| == 8
      modifies this`state, block, account
      ensures |state| == 8 && StateOf(state) == Compress(o, old(StateOf(state)), FirstOfTwo(message))
      ensures account.charges == old(account.charges) + COMPRESSION
    {
      PrepareTwo();
      CompressBlock();
    }

    method FinishLast()
      requires block.Length == 64 && byteLength == |message| && Complete(o) && |state| == 8
      modifies this`state, block, account
      ensures |state| == 8 && StateOf(state) == Compress(o, old(StateOf(state)), LastOfTwo(message))
      ensures account.charges == old(account.charges) + 8 + COMPRESSION
    {
      PrepareLast();
      CompressBlock();
    }

    // ---------------------------------------------------------------- copies

    /** A copy with a buffer of its own. */
    method Clone() returns (copy: Hasher<W>)
      requires Valid()
      modifies account
      ensures fresh(copy) && fresh(copy.block) && copy.Valid() && copy.message == message && !copy.finished
      ensures copy.account == account && copy.o == o && account.charges == old(account.charges) + 72
    {
      copy := new Hasher(o, account);
      copy.CopyFrom(this);
    }

    method CopyState(from: Hasher<W>)
      requires |state| == 8 && |from.state| == 8 && from != this
      modifies this`state, account
      ensures state == from.state && account.charges == old(account.charges) + 8
    {
      for i := 0 to 8
        invariant |state| == 8 && state[..i] == from.state[..i] && account.charges == old(account.charges) + i
      {
        account.Charge();
        state := state[i := from.state[i]];
      }
    }

    method CopyBlock(from: Hasher<W>)
      requires block.Length == 64 && from.block.Length == 64 && from.block != block
      modifies block, account
      ensures block[..] == from.block[..] && account.charges == old(account.charges) + 64
    {
      for i := 0 to 64
        invariant block[..i] == from.block[..i] && account.charges == old(account.charges) + i
      {
        account.Charge();
        block[i] := from.block[i];
      }
    }

    method CopyFrom(from: Hasher<W>)
      requires Complete(o) && block.Length == 64 && |state| == 8 && from.Valid() && from.o == o && from != this
      requires from.block != block && account == from.account
      modifies this, block, account
      ensures Valid() && message == from.message && finished == old(finished)
      ensures account.charges == old(account.charges) + 72
    {
      CopyState(from);
      CopyBlock(from);
      blockLength, byteLength, message := from.blockLength, from.byteLength, from.message;
      assert block[..blockLength] == block[..][..blockLength];
    }

    /** The digest so far; the hasher itself goes on as it was. */
    method HexSoFar() returns (text: string)
      requires Valid()
      modifies account
      ensures Valid() && text == Digest(o, message)
      ensures account.charges == old(account.charges) + 88 + COMPRESSION * (if |message| % 64 < 56 then 1 else 2)
    {
      var copy := Clone();
      text := copy.DigestHex();
    }
  }

  function HexTo<W>(o: Operations<W>, w: seq<W>, n: nat): string
    requires n <= |w|
  {
    if n == 0 then "" else HexTo(o, w, n - 1) + o.hex(w[n - 1])
  }

  lemma HexToAll<W>(o: Operations<W>, w: seq<W>)
    requires |w| == 8
    ensures HexTo(o, w, 8) == Hex(o, StateOf(w))
  {
    assert HexTo(o, w, 1) == "" + o.hex(w[0]) == o.hex(w[0]);
    assert HexTo(o, w, 2) == HexTo(o, w, 1) + o.hex(w[1]);
    assert HexTo(o, w, 3) == HexTo(o, w, 2) + o.hex(w[2]);
    assert HexTo(o, w, 4) == HexTo(o, w, 3) + o.hex(w[3]);
    assert HexTo(o, w, 5) == HexTo(o, w, 4) + o.hex(w[4]);
    assert HexTo(o, w, 6) == HexTo(o, w, 5) + o.hex(w[5]);
    assert HexTo(o, w, 7) == HexTo(o, w, 6) + o.hex(w[6]);
  }

  function Concat(chunks: seq<seq<Byte>>): seq<Byte> {
    if chunks == [] then [] else Concat(chunks[..|chunks| - 1]) + chunks[|chunks| - 1]
  }

  lemma PaddedBlocks(m: seq<Byte>)
    ensures |Padded(m)| / 64 == Blocks(|m|) + if |m| % 64 < 56 then 1 else 2
  {
    var k := ZeroCount(|m|);
    assert k == if |m| % 64 <= 55 then 55 - |m| % 64 else 119 - |m| % 64;
    assert |m| == 64 * Blocks(|m|) + |m| % 64;
  }

  /** Every way of cutting a message into updates gives its one-shot digest, for one charge an
      octet, sixteen for the length and the text, and those of the padded message's blocks. */
  method HashChunks<W(0)>(o: Operations<W>, chunks: seq<seq<Byte>>) returns (text: string, charges: nat)
    requires Complete(o)
    ensures text == Digest(o, Concat(chunks))
    ensures charges == |Concat(chunks)| + 16 + COMPRESSION * (|Padded(Concat(chunks))| / 64)
  {
    var account := new Account();
    var hasher := new Hasher(o, account);
    for i := 0 to |chunks|
      invariant hasher.Valid() && !hasher.finished && hasher.account == account && hasher.o == o
      invariant fresh(hasher) && fresh(hasher.block) && fresh(account)
      invariant hasher.message == Concat(chunks[..i])
      invariant account.charges == |hasher.message| + COMPRESSION * Blocks(|hasher.message|)
    {
      assert chunks[..i + 1][..i] == chunks[..i];
      var ok := hasher.Update(chunks[i]);
    }
    assert chunks[..|chunks|] == chunks;
    PaddedBlocks(hasher.message);
    text := hasher.DigestHex();
    charges := account.charges;
  }

  /** In particular the standard's own digest, for every cutting of every message. */
  method HashFips(chunks: seq<seq<Byte>>) returns (text: string, charges: nat)
    ensures Complete(FIPS)
    ensures text == Digest(FIPS, Concat(chunks))
    ensures charges == |Concat(chunks)| + 16 + COMPRESSION * (|Padded(Concat(chunks))| / 64)
  {
    FipsComplete();
    text, charges := HashChunks(FIPS, chunks);
  }
}
