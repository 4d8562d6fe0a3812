/**
 An uplink chunk hidden in numbered headers or cookies: base64url text cut into randomly
 sized pieces. The random draws are a parameter.
 */
module Chunks {
  import opened Wrappers
  import B = Base64

  /** A size range; an empty or inverted one always yields `from`. */
  datatype Range = Range(from: int, to: int)

  function Between(r: Range, draw: nat): (n: int)
    ensures r.from <= n <= if r.to <= r.from then r.from else r.to
  {
    if r.to <= r.from then r.from else r.from + draw % (r.to - r.from + 1)
  }

  function Concat(chunks: seq<string>): string {
    if chunks == [] then [] else Concat(chunks[..|chunks| - 1]) + chunks[|chunks| - 1]
  }

  lemma ConcatSnoc(chunks: seq<string>, piece: string)
    ensures Concat(chunks + [piece]) == Concat(chunks) + piece
  {
    assert (chunks + [piece])[..|chunks|] == chunks;
  }

  /** Every piece but the last, and the last too while `more` is to come, has a size the
      range allows, and no piece is empty. */
  predicate WellCut(chunks: seq<string>, size: Range, more: bool) {
    forall i :: 0 <= i < |chunks| ==> Fits(chunks[i], size, more || i < |chunks| - 1)
  }

  predicate Fits(piece: string, size: Range, full: bool) {
    && piece != []
    && (size.from > 0 ==>
          && |piece| <= (if size.to <= size.from then size.from else size.to)
          && (full ==> |piece| >= size.from))
  }

  lemma WellCutSnoc(chunks: seq<string>, piece: string, size: Range, more: bool)
    requires WellCut(chunks, size, true) && Fits(piece, size, more)
    ensures WellCut(chunks + [piece], size, more)
  {
  }

  lemma CutFits(rest: string, size: Range, draw: nat, n: nat)
    requires rest != []
    requires var k := Between(size, draw); n == if k <= 0 || k > |rest| then |rest| else k
    ensures Fits(rest[..n], size, n < |rest|)
  {
  }

  /** For every size range, even a nonpositive one, and every draw the loop ends, and its
      nonempty pieces put together are the encoding. */
  method ChunkEncoded(payload: seq<B.Byte>, size: Range, draws: nat -> nat) returns (out: seq<string>)
    ensures Concat(out) == B.Encode(true, payload)
    ensures WellCut(out, size, false)
  {
    var encoded := B.Encode(true, payload);
    out := Cut(encoded, size, draws);
  }

  method Cut(encoded: string, size: Range, draws: nat -> nat) returns (out: seq<string>)
    ensures Concat(out) == encoded
    ensures WellCut(out, size, false)
  {
    var rest := encoded;
    out := [];
    while |rest| > 0
      invariant Concat(out) + rest == encoded
      invariant WellCut(out, size, rest != [])
      decreases |rest|
    {
      var n := Between(size, draws(|out|));
      if |rest| < n {
        n := |rest|;
      }
      if n <= 0 {
        n := |rest|;
      }
      CutFits(rest, size, draws(|out|), n);
      WellCutSnoc(out, rest[..n], size, rest[n..] != []);
      Moved(out, rest, n);
      out := out + [rest[..n]];
      rest := rest[n..];
    }
  }

  lemma Moved(out: seq<string>, rest: string, n: nat)
    requires n <= |rest|
    ensures Concat(out + [rest[..n]]) + rest[n..] == Concat(out) + rest
  {
    ConcatSnoc(out, rest[..n]);
    assert rest == rest[..n] + rest[n..];
  }

  // ---------------------------------------------------------------- attached to a request

  datatype Placement = Body | Header | Cookie

  /** Where the payload of a request may travel: its body, or texts numbered from zero. */
  datatype Request = Request(body: Option<seq<B.Byte>>, headers: map<nat, string>, cookies: map<nat, string>)

  /** The numbered pieces as the receiver collects them: from zero until one is missing. */
  function Collected(pieces: map<nat, string>, from: nat): string
    decreases |pieces|
  {
    if from in pieces then
      assert (pieces - {from}).Keys == pieces.Keys - {from};
      pieces[from] + Collected(pieces - {from}, from + 1)
    else []
  }

  function Numbered(chunks: seq<string>): map<nat, string> {
    map i: nat | 0 <= i < |chunks| :: chunks[i]
  }

  method Number(chunks: seq<string>) returns (m: map<nat, string>)
    ensures m == Numbered(chunks)
  {
    m := map[];
    for i := 0 to |chunks|
      invariant m == map k: nat | 0 <= k < i :: chunks[k]
    {
      m := m[i := chunks[i]];
    }
  }

  lemma {:induction false} CollectedFrom(pieces: map<nat, string>, chunks: seq<string>, from: nat)
    requires from <= |chunks|
    requires forall i: nat :: from <= i ==> (i in pieces <==> i < |chunks|)
    requires forall i: nat :: from <= i < |chunks| ==> pieces[i] == chunks[i]
    ensures Concat(chunks[..from]) + Collected(pieces, from) == Concat(chunks)
    decreases |chunks| - from
  {
    if from < |chunks| {
      assert chunks[..from + 1] == chunks[..from] + [chunks[from]];
      ConcatSnoc(chunks[..from], chunks[from]);
      CollectedFrom(pieces - {from}, chunks, from + 1);
      var rest := Collected(pieces - {from}, from + 1);
      assert Concat(chunks[..from]) + (chunks[from] + rest) == Concat(chunks[..from + 1]) + rest;
    } else {
      assert chunks[..from] == chunks;
    }
  }

  /** What the server gets out of a request. */
  function Received(r: Request, placement: Placement): Option<seq<B.Byte>> {
    match placement
    case Body => r.body
    case Header => B.Decode(B.RAW_URL, Collected(r.headers, 0))
    case Cookie => B.Decode(B.RAW_URL, Collected(r.cookies, 0))
  }

  /** Whatever the placement, the size range and the random draws, the server recovers the
      payload, and nothing else of the request changes. */
  method AttachPacketPayload(r: Request, placement: Placement, payload: seq<B.Byte>, size: Range, draws: nat -> nat)
    returns (q: Request)
    requires r.headers == map[] && r.cookies == map[]
    ensures Received(q, placement) == Some(payload)
    ensures placement != Body ==> q.body == r.body
    ensures placement != Header ==> q.headers == r.headers
    ensures placement != Cookie ==> q.cookies == r.cookies
  {
    if placement == Body {
      return r.(body := Some(payload));
    }
    var chunks := ChunkEncoded(payload, size, draws);
    var pieces := Number(chunks);
    PiecesDecode(chunks, payload);
    q := if placement == Header then r.(headers := pieces) else r.(cookies := pieces);
  }

  lemma PiecesDecode(chunks: seq<string>, payload: seq<B.Byte>)
    requires Concat(chunks) == B.Encode(true, payload)
    ensures B.Decode(B.RAW_URL, Collected(Numbered(chunks), 0)) == Some(payload)
  {
    CollectedFrom(Numbered(chunks), chunks, 0);
    assert chunks[..0] == [];
    assert Concat(chunks[..0]) == [];
    assert Collected(Numbered(chunks), 0) == B.Encode(true, payload);
    B.RoundTrip(true, payload);
  }
}
