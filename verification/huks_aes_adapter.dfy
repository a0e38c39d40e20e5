/** The chunked AEAD adapter over a key store that enciphers a stream: any keystream, any
    tag function. Buffer sizes are 32-bit in the source, so its sums are taken modulo 2^32. */
module AeadAdapter {
  import opened Basics

  type Byte = bv8
  type Bytes = seq<Byte>

  const MAX_UPDATE_SIZE := 64 * 1024
  const MAX_OUTDATA_SIZE := 128 * 1024
  const NONCE_SIZE := 12
  const AEAD_SIZE := 16
  const TWO_32 := 0x1_0000_0000

  const HKS_SUCCESS := 0
  const HKS_FAILURE := -1
  const HKS_ERROR_INVALID_ARGUMENT := -3

  /** The largest input the segmenting loop handles. */
  const LIMIT := TWO_32 - MAX_UPDATE_SIZE

  function Wrap(x: nat): nat {
    x % TWO_32
  }

  /** A key: its keystream for a nonce, and its tag for a nonce and a ciphertext, bytewise. */
  datatype Cipher = Cipher(stream: (Bytes, nat) -> Byte, tagByte: (Bytes, Bytes, nat) -> Byte)

  /** The stream cipher from position `pos` on; enciphering and deciphering are the same. */
  function Xor(c: Cipher, nonce: Bytes, pos: nat, data: Bytes): (r: Bytes)
    ensures |r| == |data|
  {
    seq(|data|, i requires 0 <= i < |data| => data[i] ^ c.stream(nonce, pos + i))
  }

  function Tag(c: Cipher, nonce: Bytes, ciphertext: Bytes): (r: Bytes)
    ensures |r| == AEAD_SIZE
  {
    seq(AEAD_SIZE, i requires 0 <= i < AEAD_SIZE => c.tagByte(nonce, ciphertext, i))
  }

  // ---- What a sealed buffer is, without any segmenting.

  function Seal(c: Cipher, nonce: Bytes, plain: Bytes): Bytes {
    var ciphertext := Xor(c, nonce, 0, plain);
    nonce + ciphertext + Tag(c, nonce, ciphertext)
  }

  function Open(c: Cipher, data: Bytes): Option<Bytes> {
    if |data| <= NONCE_SIZE + AEAD_SIZE then None
    else
      var nonce := data[..NONCE_SIZE];
      var ciphertext := data[NONCE_SIZE..|data| - AEAD_SIZE];
      if data[|data| - AEAD_SIZE..] == Tag(c, nonce, ciphertext) then Some(Xor(c, nonce, 0, ciphertext)) else None
  }

  lemma XorTwice(c: Cipher, nonce: Bytes, pos: nat, data: Bytes)
    ensures Xor(c, nonce, pos, Xor(c, nonce, pos, data)) == data
  {
  }

  /** Enciphering piece by piece is enciphering the whole. */
  lemma XorConcat(c: Cipher, nonce: Bytes, a: Bytes, b: Bytes)
    ensures Xor(c, nonce, 0, a + b) == Xor(c, nonce, 0, a) + Xor(c, nonce, |a|, b)
  {
  }

  /** The layout of a sealed buffer: 12 bytes of nonce, the enciphered bytes, one keystream byte each
      from position 0 on, and 16 bytes of tag over what was enciphered. */
  lemma SealLayout(c: Cipher, nonce: Bytes, plain: Bytes)
    requires |nonce| == 12
    ensures |Seal(c, nonce, plain)| == 12 + |plain| + 16 && Seal(c, nonce, plain)[..12] == nonce
    ensures var rest := Seal(c, nonce, plain)[12..];
            var tag := rest[|plain|..];
            && (forall i :: 0 <= i < |plain| ==> rest[i] == plain[i] ^ c.stream(nonce, i))
            && (forall i :: 0 <= i < 16 ==> tag[i] == c.tagByte(nonce, rest[..|plain|], i))
  {
    var ciphertext := Xor(c, nonce, 0, plain);
    var data := Seal(c, nonce, plain);
    assert data[12..] == ciphertext + Tag(c, nonce, ciphertext);
    assert data[12..][..|plain|] == ciphertext && data[12..][|plain|..] == Tag(c, nonce, ciphertext);
  }

  /** Opening undoes sealing. */
  lemma OpenSeal(c: Cipher, nonce: Bytes, plain: Bytes)
    requires |nonce| == NONCE_SIZE && plain != []
    ensures Open(c, Seal(c, nonce, plain)) == Some(plain)
  {
    var ciphertext := Xor(c, nonce, 0, plain);
    var data := Seal(c, nonce, plain);
    assert data[..NONCE_SIZE] == nonce;
    assert data[NONCE_SIZE..|data| - AEAD_SIZE] == ciphertext;
    assert data[|data| - AEAD_SIZE..] == Tag(c, nonce, ciphertext);
    XorTwice(c, nonce, 0, plain);
  }

  /** Whatever opens is a sealed buffer: it is the seal of what it opens to. */
  lemma SealOpen(c: Cipher, data: Bytes)
    requires Open(c, data).Some?
    ensures Seal(c, data[..NONCE_SIZE], Open(c, data).value) == data
  {
    var ciphertext := data[NONCE_SIZE..|data| - AEAD_SIZE];
    XorTwice(c, data[..NONCE_SIZE], 0, ciphertext);
    assert data == data[..NONCE_SIZE] + ciphertext + data[|data| - AEAD_SIZE..];
  }

  // ---- Segmenting.

  /** The pieces an input of `n` bytes is fed in: full ones, then a last one of 1 to 64Ki. */
  function ChunkSizes(n: nat): (r: seq<nat>)
    ensures |r| > 0 && r[|r| - 1] <= MAX_UPDATE_SIZE && (n > 0 ==> r[|r| - 1] > 0)
    ensures forall i :: 0 <= i < |r| - 1 ==> r[i] == MAX_UPDATE_SIZE
    ensures n == (|r| - 1) * MAX_UPDATE_SIZE + r[|r| - 1]
  {
    if n <= MAX_UPDATE_SIZE then [n] else [MAX_UPDATE_SIZE] + ChunkSizes(n - MAX_UPDATE_SIZE)
  }

  /** `k` full pieces followed by a last one. */
  lemma ChunksAre(n: nat, k: nat, last: nat)
    requires n == k * MAX_UPDATE_SIZE + last && 0 < last <= MAX_UPDATE_SIZE
    ensures ChunkSizes(n) == seq(k, i => MAX_UPDATE_SIZE) + [last]
  {
  }

  /** The loop's 32-bit test for the last piece is right at every offset it visits exactly up
      to LIMIT bytes. Above it the last sum wraps to 0 and the test misses the end. */
  lemma GuardIsExact(n: nat)
    requires 0 < n < TWO_32
    ensures (forall k: nat :: k * MAX_UPDATE_SIZE < n ==>
               (Wrap(k * MAX_UPDATE_SIZE + MAX_UPDATE_SIZE) >= n <==> k * MAX_UPDATE_SIZE + MAX_UPDATE_SIZE >= n))
       <==> n <= LIMIT
  {
    var k := LIMIT / MAX_UPDATE_SIZE;
    assert k * MAX_UPDATE_SIZE == LIMIT;
    if n > LIMIT {
      assert Wrap(k * MAX_UPDATE_SIZE + MAX_UPDATE_SIZE) == 0;
    }
  }

  /** What follows then. At offset LIMIT the loop would feed a full piece that reaches past the
      input; and were it let go on, its offset would return to 0 and it would never end: in no turn
      is the input found used up, nor the next piece found to be the last. */
  lemma GuardMissesEnd(n: nat, k: nat)
    requires LIMIT < n < TWO_32
    ensures LIMIT % MAX_UPDATE_SIZE == 0 && LIMIT + MAX_UPDATE_SIZE > n
    ensures var offset := Wrap(k * MAX_UPDATE_SIZE); offset < n && Wrap(offset + MAX_UPDATE_SIZE) < n
  {
    var turns := TWO_32 / MAX_UPDATE_SIZE;
    WrapTurns(k);
    WrapTurns(k % turns + 1);
  }

  /** Offsets repeat every 2^16 pieces. */
  lemma WrapTurns(k: nat)
    ensures Wrap(k * MAX_UPDATE_SIZE) == k % (TWO_32 / MAX_UPDATE_SIZE) * MAX_UPDATE_SIZE <= LIMIT
  {
    var turns := TWO_32 / MAX_UPDATE_SIZE;
    var q, r := k / turns, k % turns;
    assert k * MAX_UPDATE_SIZE == q * TWO_32 + r * MAX_UPDATE_SIZE;
  }

  /** A HUKS session: the input seen so far, the sizes it came in, and how many calls failed
      for reasons of HUKS's own. */
  class Session {
    const cipher: Cipher
    const encrypting: bool
    const nonce: Bytes
    const expectedTag: Bytes
    var seen: Bytes
    var chunks: seq<nat>
    var faults: nat

    constructor (cipher: Cipher, encrypting: bool, nonce: Bytes, expectedTag: Bytes)
      ensures this.cipher == cipher && this.encrypting == encrypting
      ensures this.nonce == nonce && this.expectedTag == expectedTag
      ensures seen == [] && chunks == [] && faults == 0
    {
      this.cipher, this.encrypting, this.nonce, this.expectedTag := cipher, encrypting, nonce, expectedTag;
      seen, chunks, faults := [], [], 0;
    }

    /** HksUpdate: as many bytes out as in. Too small an output buffer is refused. */
    method Update(input: Bytes, outCapacity: nat) returns (ret: int, output: Bytes)
      modifies this
      ensures faults >= old(faults)
      ensures outCapacity >= |input| && faults == old(faults) ==> ret == HKS_SUCCESS
      ensures ret == HKS_SUCCESS ==>
                && faults == old(faults)
                && output == Xor(cipher, nonce, |old(seen)|, input)
                && seen == old(seen) + input && chunks == old(chunks) + [|input|]
    {
      ret := *;
      output := [];
      if ret != HKS_SUCCESS {
        faults := faults + 1;
        return;
      }
      if outCapacity < |input| {
        return HKS_FAILURE, [];
      }
      output := Xor(cipher, nonce, |seen|, input);
      seen, chunks := seen + input, chunks + [|input|];
    }

    /** HksFinish: the last piece; a tag is appended when encrypting and checked otherwise. */
    method Finish(input: Bytes, outCapacity: nat) returns (ret: int, output: Bytes)
      modifies this
      ensures faults >= old(faults)
      ensures outCapacity >= |input| + AEAD_SIZE && faults == old(faults) ==>
                (ret == HKS_SUCCESS <==> encrypting || expectedTag == Tag(cipher, nonce, old(seen) + input))
      ensures ret == HKS_SUCCESS ==>
                && faults == old(faults)
                && output == Xor(cipher, nonce, |old(seen)|, input)
                             + (if encrypting then Tag(cipher, nonce, Xor(cipher, nonce, 0, seen)) else [])
                && (!encrypting ==> expectedTag == Tag(cipher, nonce, seen))
                && seen == old(seen) + input && chunks == old(chunks) + [|input|]
    {
      ret := *;
      output := [];
      if ret != HKS_SUCCESS {
        faults := faults + 1;
        return;
      }
      var piece := Xor(cipher, nonce, |seen|, input);
      var all := seen + input;
      if !encrypting && expectedTag != Tag(cipher, nonce, all) {
        return HKS_FAILURE, [];
      }
      output := piece + (if encrypting then Tag(cipher, nonce, Xor(cipher, nonce, 0, all)) else []);
      if outCapacity < |output| {
        return HKS_FAILURE, [];
      }
      seen, chunks := all, chunks + [|input|];
    }
  }

  /** memcpy_s. */
  method Copy(to: array<Byte>, at: nat, data: Bytes)
    requires at + |data| <= to.Length
    modifies to
    ensures to[..at] == old(to[..at]) && to[at..at + |data|] == data
  {
    forall i | 0 <= i < |data| {
      to[at + i] := data[i];
    }
  }

  /** What a session hands back for a whole input. */
  function Result(s: Session, input: Bytes): Bytes {
    Xor(s.cipher, s.nonce, 0, input)
    + (if s.encrypting then Tag(s.cipher, s.nonce, Xor(s.cipher, s.nonce, 0, input)) else [])
  }

  /** One full piece through HksUpdate and into the output. */
  method FeedPiece(s: Session, input: Bytes, out: array<Byte>, off: nat, size: nat, done: nat, capacity: nat)
    returns (ret: int, produced: nat)
    requires s.faults == 0 && done + MAX_UPDATE_SIZE <= |input| <= size < TWO_32 && off + size <= out.Length
    requires s.seen == input[..done] && capacity >= MAX_UPDATE_SIZE
    requires out[off..off + done] == Xor(s.cipher, s.nonce, 0, input[..done])
    modifies s, out
    ensures ret != HKS_SUCCESS ==> s.faults > 0
    ensures ret == HKS_SUCCESS ==>
              && s.faults == 0 && produced == MAX_UPDATE_SIZE && s.seen == input[..done + produced]
              && s.chunks == old(s.chunks) + [MAX_UPDATE_SIZE]
              && out[off..off + done + produced] == Xor(s.cipher, s.nonce, 0, input[..done + produced])
  {
    var piece := input[done..done + MAX_UPDATE_SIZE];
    var output: Bytes;
    produced := 0;
    ret, output := s.Update(piece, capacity);
    if ret != HKS_SUCCESS {
      ret := HKS_FAILURE;
      return;
    }
    if Wrap(done + |output|) > size {
      ret := HKS_FAILURE;
      return;
    }
    Append(out, off, done, output);
    XorConcat(s.cipher, s.nonce, input[..done], piece);
    assert input[..done] + piece == input[..done + MAX_UPDATE_SIZE];
    produced := |output|;
  }

  /** Copies behind what has been collected so far. */
  method Append(out: array<Byte>, off: nat, done: nat, data: Bytes)
    requires off + done + |data| <= out.Length
    modifies out
    ensures out[off..off + done + |data|] == old(out[off..off + done]) + data
  {
    ghost var before := out[..off + done];
    Copy(out, off + done, data);
    assert out[off..off + done] == before[off..];
    assert out[off..off + done + |data|] == out[off..off + done] + out[off + done..off + done + |data|];
  }

  /** The last piece through HksFinish. */
  method FinishPiece(s: Session, input: Bytes, out: array<Byte>, off: nat, size: nat, done: nat, last: nat)
    returns (ret: int, written: nat)
    requires s.faults == 0 && done + last == |input| && size == |Result(s, input)| < TWO_32
    requires off + size <= out.Length && s.seen == input[..done]
    requires out[off..off + done] == Xor(s.cipher, s.nonce, 0, input[..done])
    modifies s, out
    ensures ret == HKS_SUCCESS ==>
              && written == size && out[off..off + size] == Result(s, input)
              && s.faults == 0 && s.seen == input && s.chunks == old(s.chunks) + [last]
    ensures s.faults == 0 ==>
              (ret == HKS_SUCCESS <==> s.encrypting || s.expectedTag == Tag(s.cipher, s.nonce, input))
  {
    var piece := input[done..done + last];
    assert input[..done] + piece == input;
    var output: Bytes;
    written := 0;
    ret, output := s.Finish(piece, last + AEAD_SIZE);
    if ret != HKS_SUCCESS {
      ret := HKS_FAILURE;
      return;
    }
    XorConcat(s.cipher, s.nonce, input[..done], piece);
    assert Xor(s.cipher, s.nonce, 0, input[..done]) + output == Result(s, input);
    if Wrap(done + |output|) > size {
      ret := HKS_FAILURE;
      return;
    }
    Append(out, off, done, output);
    written := Wrap(done + |output|);
  }

  /** Feeds the input in pieces and collects the output at `off`. The size field of the output
      piece is reused from call to call as the next buffer's capacity. */
  method UpdateAndFinish(s: Session, input: Bytes, out: array<Byte>, off: nat, size: nat)
    returns (ret: int, written: nat)
    requires s.seen == [] && s.chunks == [] && s.faults == 0
    requires 0 < |input| <= LIMIT
    requires size == |Result(s, input)| && off + size <= out.Length
    modifies s, out
    ensures ret == HKS_SUCCESS ==>
              && written == size && out[off..off + size] == Result(s, input)
              && s.faults == 0 && s.chunks == ChunkSizes(|input|) && s.seen == input
    ensures s.faults == 0 ==>
              (ret == HKS_SUCCESS <==> s.encrypting || s.expectedTag == Tag(s.cipher, s.nonce, input))
  {
    hide Xor, Tag;
    var inSegSize, outSegSize := MAX_UPDATE_SIZE, MAX_OUTDATA_SIZE;
    var inUpdate, outUpdate := 0, 0;
    ghost var k := 0;
    assert out[off..off + 0] == Xor(s.cipher, s.nonce, 0, input[..0]);
    while inUpdate < |input|
      invariant inUpdate == k * MAX_UPDATE_SIZE < |input| && outUpdate == inUpdate
      invariant inSegSize == MAX_UPDATE_SIZE <= outSegSize
      invariant s.faults == 0 && s.seen == input[..inUpdate] && s.chunks == seq(k, i => MAX_UPDATE_SIZE)
      invariant out[off..off + outUpdate] == Xor(s.cipher, s.nonce, 0, input[..inUpdate])
      decreases |input| - inUpdate
    {
      if Wrap(inUpdate + MAX_UPDATE_SIZE) >= |input| {
        inSegSize := |input| - inUpdate;
        break;
      }
      ret, outSegSize := FeedPiece(s, input, out, off, size, inUpdate, outSegSize);
      if ret != HKS_SUCCESS {
        return HKS_FAILURE, 0;
      }
      outUpdate := Wrap(outUpdate + outSegSize);
      inUpdate := Wrap(inUpdate + MAX_UPDATE_SIZE);
      k := k + 1;
    }
    ChunksAre(|input|, k, inSegSize);
    ret, written := FinishPiece(s, input, out, off, size, outUpdate, inSegSize);
  }

  /** The key store: one key under the adapter's alias, once it has been generated. */
  class Huks {
    const cipher: Cipher
    var keyExists: bool
    var faults: nat

    constructor (cipher: Cipher)
      ensures this.cipher == cipher && !keyExists && faults == 0
    {
      this.cipher, keyExists, faults := cipher, false, 0;
    }

    /** Any preparatory call may fail: looking up, generating, drawing the nonce, HksInit. */
    method Prepare(generate: bool) returns (ret: int)
      modifies this
      ensures faults >= old(faults) && (old(keyExists) ==> keyExists)
      ensures ret == HKS_SUCCESS ==> keyExists && faults == old(faults) && (generate || old(keyExists))
      ensures !generate ==> keyExists == old(keyExists)
      ensures faults == old(faults) && (generate || old(keyExists)) ==> ret == HKS_SUCCESS
    {
      ret := *;
      if ret != HKS_SUCCESS {
        faults := faults + 1;
        return;
      }
      if !keyExists {
        if !generate {
          return HKS_FAILURE;
        }
        keyExists := true;
      }
    }
  }

  /** Encrypt with a given nonce: the result is the sealed buffer, nonce first, tag last. */
  method Encrypt(h: Huks, input: Bytes, nonce: Bytes) returns (ret: int, output: Bytes)
    requires |input| <= LIMIT && |nonce| == NONCE_SIZE
    modifies h
    ensures h.faults >= old(h.faults) && (old(h.keyExists) ==> h.keyExists)
    ensures input == [] ==> ret == HKS_ERROR_INVALID_ARGUMENT
    ensures ret == HKS_SUCCESS ==> h.keyExists && output == Seal(h.cipher, nonce, input)
    ensures input != [] && h.faults == old(h.faults) ==> ret == HKS_SUCCESS
  {
    hide Xor, Tag, ChunkSizes;
    if input == [] {
      return HKS_ERROR_INVALID_ARGUMENT, [];
    }
    ret := h.Prepare(true);
    if ret != HKS_SUCCESS {
      return ret, [];
    }
    var s := new Session(h.cipher, true, nonce, []);
    var encryptData := new Byte[|input| + NONCE_SIZE + AEAD_SIZE];
    var written: nat;
    ret, written := UpdateAndFinish(s, input, encryptData, NONCE_SIZE, |input| + AEAD_SIZE);
    if ret != HKS_SUCCESS {
      h.faults := h.faults + s.faults;
      return ret, [];
    }
    ghost var body := encryptData[NONCE_SIZE..NONCE_SIZE + written];
    forall i | 0 <= i < NONCE_SIZE {
      encryptData[i] := nonce[i];
    }
    assert encryptData[..NONCE_SIZE] == nonce;
    assert encryptData[NONCE_SIZE..NONCE_SIZE + written] == body;
    output := encryptData[..Wrap(written + NONCE_SIZE)];
    assert output == encryptData[..NONCE_SIZE] + encryptData[NONCE_SIZE..NONCE_SIZE + written];
  }

  /** Decrypt: with the key present and no failure of HUKS's own, it succeeds exactly on
      sealed buffers and gives back what was sealed. */
  method Decrypt(h: Huks, input: Bytes) returns (ret: int, output: Bytes)
    requires |input| <= LIMIT + NONCE_SIZE + AEAD_SIZE
    modifies h
    ensures h.faults >= old(h.faults) && h.keyExists == old(h.keyExists)
    ensures |input| <= NONCE_SIZE + AEAD_SIZE ==> ret == HKS_ERROR_INVALID_ARGUMENT
    ensures ret == HKS_SUCCESS ==> old(h.keyExists) && h.keyExists && Open(h.cipher, input) == Some(output)
    ensures old(h.keyExists) && h.faults == old(h.faults) ==> (ret == HKS_SUCCESS <==> Open(h.cipher, input).Some?)
  {
    hide Xor, Tag, ChunkSizes;
    if |input| <= NONCE_SIZE + AEAD_SIZE {
      return HKS_ERROR_INVALID_ARGUMENT, [];
    }
    ret := h.Prepare(false);
    if ret != HKS_SUCCESS {
      return ret, [];
    }
    var nonce := input[..NONCE_SIZE];
    var tag := input[|input| - AEAD_SIZE..];
    var s := new Session(h.cipher, false, nonce, tag);
    var body := input[NONCE_SIZE..|input| - AEAD_SIZE];
    var decryptData := new Byte[|body|];
    var written: nat;
    ret, written := UpdateAndFinish(s, body, decryptData, 0, |body|);
    if ret != HKS_SUCCESS {
      h.faults := h.faults + s.faults;
      return ret, [];
    }
    output := decryptData[..written];
    assert output == decryptData[0..0 + written] == Result(s, body) == Xor(h.cipher, nonce, 0, body);
  }

  /** Decrypting what was encrypted gives it back, whatever the keystream and the tags. */
  method RoundTrip(h: Huks, plain: Bytes, nonce: Bytes) returns (ret: int, output: Bytes)
    requires 0 < |plain| <= LIMIT && |nonce| == NONCE_SIZE
    modifies h
    ensures ret == HKS_SUCCESS ==> output == plain
    ensures h.faults == old(h.faults) ==> ret == HKS_SUCCESS
  {
    hide Xor, Tag, Open;
    var sealed: Bytes;
    ret, sealed := Encrypt(h, plain, nonce);
    if ret != HKS_SUCCESS {
      return ret, [];
    }
    OpenSeal(h.cipher, nonce, plain);
    ret, output := Decrypt(h, sealed);
  }
}
