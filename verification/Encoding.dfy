/** The length-prefixed encodings that are hashed
    (internal/server/inferencecache_service.go:766-787, internal/server/probe.go:242-268).
    Bytes are characters below 256. The decoder shows that nothing is lost
    before hashing, as long as lengths fit the 32-bit prefix.
 */
module Encoding {
  import opened Domain

  const WIDTH := 0x1_0000_0000

  /** `PutUint32` big endian of `uint32(n)`. */
  function Uint32(n: nat): (s: string)
    ensures |s| == 4
  {
    [(n / 0x100_0000 % 0x100) as char, (n / 0x1_0000 % 0x100) as char, (n / 0x100 % 0x100) as char, (n % 0x100) as char]
  }

  function ReadUint32(s: string): nat
    requires |s| >= 4
  {
    s[0] as nat * 0x100_0000 + s[1] as nat * 0x1_0000 + s[2] as nat * 0x100 + s[3] as nat
  }

  lemma DigitsCompose(n: nat)
    requires n < WIDTH
    ensures n / 0x100_0000 % 0x100 * 0x100_0000 + n / 0x1_0000 % 0x100 * 0x1_0000 + n / 0x100 % 0x100 * 0x100 + n % 0x100 == n
  {
    assert n / 0x1_0000 == n / 0x100 / 0x100 && n / 0x100_0000 == n / 0x100 / 0x100 / 0x100;
  }

  lemma Uint32RoundTrip(n: nat, rest: string)
    requires n < WIDTH
    ensures ReadUint32(Uint32(n) + rest) == n
  {
    DigitsCompose(n);
  }

  function Frame(b: string): string {
    Uint32(|b|) + b
  }

  /** The encoding of a chain. */
  function Frames(bs: seq<string>): string {
    if bs == [] then [] else Frame(bs[0]) + Frames(bs[1..])
  }

  /** Reads frames to the end; `None` when a frame is cut short. */
  function Unframe(s: string): Option<seq<string>>
    decreases |s|
  {
    if s == [] then Some([])
    else if |s| < 4 || |s| < 4 + ReadUint32(s) then None
    else
      var n := ReadUint32(s);
      match Unframe(s[4 + n..])
      case None => None
      case Some(rest) => Some([s[4..4 + n]] + rest)
  }

  ghost predicate Fits32(bs: seq<string>) {
    forall i :: 0 <= i < |bs| ==> |bs[i]| < WIDTH
  }

  lemma FrameRead(b: string, rest: string)
    requires |b| < WIDTH
    ensures var s := Frame(b) + rest;
            |s| >= 4 + |b| && ReadUint32(s) == |b| && s[4..4 + |b|] == b && s[4 + |b|..] == rest
  {
    var s := Frame(b) + rest;
    assert s == Uint32(|b|) + (b + rest);
    Uint32RoundTrip(|b|, b + rest);
    hide Uint32, ReadUint32;
    assert s[4..4 + |b|] == b && s[4 + |b|..] == rest;
  }

  /** Decoding undoes encoding. */
  lemma {:induction false} FramesRoundTrip(bs: seq<string>)
    requires Fits32(bs)
    ensures Unframe(Frames(bs)) == Some(bs)
  {
    hide Frame, ReadUint32;
    if bs != [] {
      FramesRoundTrip(bs[1..]);
      FrameRead(bs[0], Frames(bs[1..]));
      assert [bs[0]] + bs[1..] == bs;
    }
  }

  /** Distinct chains have distinct encodings. */
  lemma FramesInjective(bs: seq<string>, cs: seq<string>)
    requires Fits32(bs) && Fits32(cs) && Frames(bs) == Frames(cs)
    ensures bs == cs
  {
    FramesRoundTrip(bs);
    FramesRoundTrip(cs);
  }

  ghost predicate Shorter(bs: seq<string>, bound: nat) {
    forall i :: 0 <= i < |bs| ==> |bs[i]| < bound
  }

  /** No two chains of blocks shorter than `bound` are encoded alike. */
  ghost predicate InjectiveBelow(bound: nat) {
    forall bs: seq<string>, cs: seq<string> :: Shorter(bs, bound) && Shorter(cs, bound) && Frames(bs) == Frames(cs) ==> bs == cs
  }

  /** The encoding is injective on blocks below a bound iff the bound is at most
      2^32: past it the prefix truncates. */
  lemma InjectiveIff(bound: nat)
    ensures InjectiveBelow(bound) <==> bound <= WIDTH
  {
    if bound <= WIDTH {
      forall bs: seq<string>, cs: seq<string> | Shorter(bs, bound) && Shorter(cs, bound) && Frames(bs) == Frames(cs)
        ensures bs == cs
      {
        FramesInjective(bs, cs);
      }
    } else {
      var b := seq(WIDTH, _ => 0 as char);
      TruncationCollides(b);
      var bs := EmptyBlocks(WIDTH / 4 + 1);
      assert Shorter(bs, bound) && Shorter([b], bound);
      assert |bs| != |[b]|;
    }
  }

  /** A block of 2^32 zero bytes is encoded like a row of empty blocks. */
  lemma TruncationCollides(b: string)
    requires |b| == WIDTH && forall i :: 0 <= i < |b| ==> b[i] == 0 as char
    ensures Frames(EmptyBlocks(WIDTH / 4 + 1)) == Frames([b])
  {
    hide Frames;
    var bs := EmptyBlocks(WIDTH / 4 + 1);
    EmptyFrames(WIDTH / 4 + 1);
    assert |Uint32(WIDTH)| == 4 && forall i :: 0 <= i < 4 ==> Uint32(WIDTH)[i] == 0 as char;
    OneFrame(b);
    assert Frames(bs) == Frame(b);
  }

  lemma OneFrame(b: string)
    ensures Frames([b]) == Frame(b)
  {
    assert [b][1..] == [];
  }

  function EmptyBlocks(n: nat): seq<string> {
    seq(n, i => "")
  }

  lemma {:induction false} EmptyFrames(n: nat)
    ensures |Frames(EmptyBlocks(n))| == 4 * n
    ensures forall i :: 0 <= i < 4 * n ==> Frames(EmptyBlocks(n))[i] == 0 as char
  {
    var bs := EmptyBlocks(n);
    if n > 0 {
      assert bs[1..] == EmptyBlocks(n - 1);
      EmptyFrames(n - 1);
      assert Frames(bs) == Uint32(0) + Frames(bs[1..]);
    }
  }

  lemma {:induction false} FramesAppend(bs: seq<string>, b: string)
    ensures Frames(bs + [b]) == Frames(bs) + Frame(b)
  {
    if bs == [] {
      assert (bs + [b])[1..] == [];
    } else {
      assert (bs + [b])[1..] == bs[1..] + [b];
      FramesAppend(bs[1..], b);
    }
  }

  /** `canonicalAffinitySeed`: the framed chain, else the exact hash, else nothing. */
  method CanonicalAffinitySeed(blockHashes: seq<string>, exactPrefixHash: string) returns (seed: string)
    ensures blockHashes != [] ==> seed == Frames(blockHashes) && seed != ""
    ensures blockHashes == [] ==> seed == exactPrefixHash
  {
    if |blockHashes| > 0 {
      seed := [];
      for i := 0 to |blockHashes|
        invariant seed == Frames(blockHashes[..i])
      {
        FramesAppend(blockHashes[..i], blockHashes[i]);
        assert blockHashes[..i + 1] == blockHashes[..i] + [blockHashes[i]];
        seed := seed + Uint32(|blockHashes[i]|);
        seed := seed + blockHashes[i];
      }
      assert blockHashes[..|blockHashes|] == blockHashes;
      return;
    }
    return exactPrefixHash;
  }

  /** What `ProbeHash` digests. */
  const PROBE_MARKER := "inferencecache.io/probe/v1\n"

  function ProbeInput(backend: string, model: string, scheme: string): string {
    PROBE_MARKER + Frame(scheme) + Frame(model) + Frame(backend)
  }

  /** Distinct (backend, model, scheme) triples are digested from distinct bytes,
      whatever characters they contain. */
  lemma ProbeInputInjective(backend: string, model: string, scheme: string, backend': string, model': string,
                            scheme': string)
    requires Fits32([scheme, model, backend]) && Fits32([scheme', model', backend'])
    requires ProbeInput(backend, model, scheme) == ProbeInput(backend', model', scheme')
    ensures backend == backend' && model == model' && scheme == scheme'
  {
    ProbeInputFrames(backend, model, scheme);
    ProbeInputFrames(backend', model', scheme');
    assert Frames([scheme, model, backend]) == Frames([scheme', model', backend']);
    FramesInjective([scheme, model, backend], [scheme', model', backend']);
    assert [scheme, model, backend][0] == [scheme', model', backend'][0];
    assert [scheme, model, backend][1] == [scheme', model', backend'][1];
    assert [scheme, model, backend][2] == [scheme', model', backend'][2];
  }

  lemma ProbeInputFrames(backend: string, model: string, scheme: string)
    ensures ProbeInput(backend, model, scheme)[|PROBE_MARKER|..] == Frames([scheme, model, backend])
  {
    var bs := [scheme, model, backend];
    assert bs[1..] == [model, backend] && bs[1..][1..] == [backend] && bs[1..][1..][1..] == [];
    assert Frames([backend]) == Frame(backend);
    assert Frames([model, backend]) == Frame(model) + Frame(backend) by { assert [model, backend][1..] == [backend]; }
    assert Frames(bs) == Frame(scheme) + (Frame(model) + Frame(backend));
    assert ProbeInput(backend, model, scheme) == PROBE_MARKER + (Frame(scheme) + (Frame(model) + Frame(backend)));
  }
}
