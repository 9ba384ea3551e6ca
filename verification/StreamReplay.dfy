/** Looking into the beginning of a response without losing any of it: the Codex executor's search for
    an overload error (open-sse/executors/codex.js) and the combo's wait for a first chunk
    (open-sse/services/combo.js). */
module StreamReplay {
  import opened Basics
  import opened Bytes
  import opened Text

  /** A chunk of the response, and the text it adds for a streaming decoder. */
  datatype Piece = Piece(raw: seq<byte>, text: string)

  const PEEK_LENGTH := 4096

  const PATTERNS: seq<string> := ["server_is_overloaded", "service_unavailable_error"]

  function Joined(ps: seq<Piece>): string {
    if ps == [] then "" else Joined(ps[..|ps| - 1]) + ps[|ps| - 1].text
  }

  /** The first of the patterns that the text contains. */
  function Hit(text: string, patterns: seq<string>): (r: Option<string>)
    ensures r.Some? ==> r.value in patterns && Includes(text, r.value)
    ensures r.None? ==> forall p :: p in patterns ==> !Includes(text, p)
  {
    if patterns == [] then None
    else if Includes(text, patterns[0]) then Some(patterns[0])
    else Hit(text, patterns[1..])
  }

  /** How many chunks are read, when `k` have been: up to a hit, to enough text, or to the end. */
  function Peeked(ps: seq<Piece>, k: nat): (n: nat)
    requires k <= |ps|
    ensures k <= n <= |ps|
    decreases |ps| - k
  {
    if k == |ps| || |Joined(ps[..k])| >= PEEK_LENGTH then k
    else if Hit(Joined(ps[..k + 1]), PATTERNS).Some? then k + 1
    else Peeked(ps, k + 1)
  }

  /** The chunks within the peek's length: the fewest that reach it, or all. */
  function Window(ps: seq<Piece>, k: nat): (n: nat)
    requires k <= |ps|
    ensures k <= n <= |ps|
    decreases |ps| - k
  {
    if k == |ps| || |Joined(ps[..k])| >= PEEK_LENGTH then k else Window(ps, k + 1)
  }

  lemma IncludesMore(text: string, more: string, p: string)
    requires Includes(text, p)
    ensures Includes(text + more, p)
  {
    var i := IndexFrom(text, p, 0).value;
    assert (text + more)[i..i + |p|] == text[i..i + |p|];
    assert OccursAt(text + more, p, i);
  }

  lemma HitMore(text: string, more: string)
    requires Hit(text, PATTERNS).Some?
    ensures Hit(text + more, PATTERNS).Some?
  {
    hide Includes;
    IncludesMore(text, more, Hit(text, PATTERNS).value);
  }

  lemma HitNext(ps: seq<Piece>, k: nat)
    requires k < |ps| && Hit(Joined(ps[..k]), PATTERNS).Some?
    ensures Hit(Joined(ps[..k + 1]), PATTERNS).Some?
  {
    hide Hit, Joined;
    JoinedStep(ps, k);
    HitMore(Joined(ps[..k]), ps[k].text);
  }

  lemma {:induction false} JoinedGrows(ps: seq<Piece>, n: nat, m: nat)
    requires n <= m <= |ps| && Hit(Joined(ps[..n]), PATTERNS).Some?
    ensures Hit(Joined(ps[..m]), PATTERNS).Some?
    decreases m
  {
    hide Hit, Joined;
    if n < m {
      JoinedGrows(ps, n, m - 1);
      HitNext(ps, m - 1);
    }
  }

  lemma JoinedStep(ps: seq<Piece>, k: nat)
    requires k < |ps|
    ensures Joined(ps[..k + 1]) == Joined(ps[..k]) + ps[k].text
  {
    assert ps[..k + 1][..k] == ps[..k];
  }

  /** The peek finds an overload error exactly when the text within its length contains one: stopping
      early at a hit, and cutting the text into chunks anywhere, lose none. */
  lemma {:induction false} PeekFinds(ps: seq<Piece>, k: nat)
    requires k <= |ps| && Hit(Joined(ps[..k]), PATTERNS).None?
    ensures Hit(Joined(ps[..Peeked(ps, k)]), PATTERNS).Some? <==> Hit(Joined(ps[..Window(ps, k)]), PATTERNS).Some?
    decreases |ps| - k
  {
    hide Hit, Joined;
    if k < |ps| && |Joined(ps[..k])| < PEEK_LENGTH {
      if Hit(Joined(ps[..k + 1]), PATTERNS).Some? {
        JoinedGrows(ps, k + 1, Window(ps, k + 1));
      } else {
        PeekFinds(ps, k + 1);
      }
    }
  }

  // ---------------------------------------------------------------- the program

  datatype Read = Value(piece: Piece) | Finished | Broken

  /** The body of a response: its chunks, and whether reading it ends with an error. */
  class Upstream {
    const pieces: seq<Piece>
    const breaks: bool
    var pos: nat

    ghost predicate Valid()
      reads this
    {
      pos <= |pieces|
    }

    constructor (pieces: seq<Piece>, breaks: bool)
      ensures this.pieces == pieces && this.breaks == breaks && pos == 0
    {
      this.pieces, this.breaks, pos := pieces, breaks, 0;
    }

    method Next() returns (r: Read)
      requires Valid()
      modifies this
      ensures Valid()
      ensures r == if old(pos) < |pieces| then Value(pieces[old(pos)]) else if breaks then Broken else Finished
      ensures pos == old(pos) + if r.Value? then 1 else 0
    {
      if pos < |pieces| {
        r := Value(pieces[pos]);
        pos := pos + 1;
      } else {
        r := if breaks then Broken else Finished;
      }
    }
  }

  /** Reads the first chunks and says whether they hold an overload error. */
  method PeekSseOverloaded(upstream: Upstream) returns (matched: Option<string>, chunks: seq<Piece>)
    requires upstream.Valid() && upstream.pos == 0
    modifies upstream
    ensures upstream.Valid() && upstream.pos == Peeked(upstream.pieces, 0)
    ensures chunks == upstream.pieces[..upstream.pos]
    ensures matched == Hit(Joined(chunks), PATTERNS)
    ensures matched.Some? <==> Hit(Joined(upstream.pieces[..Window(upstream.pieces, 0)]), PATTERNS).Some?
  {
    hide Hit, Joined, Peeked, Window;
    ghost var ps := upstream.pieces;
    chunks, matched := [], None;
    var text := "";
    Nothing(ps);
    PeekFinds(ps, 0);
    while |text| < PEEK_LENGTH
      invariant upstream.Valid() && chunks == ps[..upstream.pos]
      invariant text == Joined(chunks) && Hit(text, PATTERNS).None? && matched.None?
      invariant Peeked(ps, 0) == Peeked(ps, upstream.pos)
      decreases |ps| - upstream.pos
    {
      PeekedNext(ps, upstream.pos);
      var r := upstream.Next();
      if !r.Value? { break; }
      JoinedStep(ps, upstream.pos - 1);
      chunks := chunks + [r.piece];
      text := text + r.piece.text;
      var hit := Hit(text, PATTERNS);
      if hit.Some? {
        matched := hit;
        break;
      }
    }
    PeekedNext(ps, upstream.pos);
  }

  lemma PeekedNext(ps: seq<Piece>, k: nat)
    requires k <= |ps|
    ensures k == |ps| || |Joined(ps[..k])| >= PEEK_LENGTH ==> Peeked(ps, k) == k
    ensures k < |ps| && |Joined(ps[..k])| < PEEK_LENGTH ==>
              Peeked(ps, k) == if Hit(Joined(ps[..k + 1]), PATTERNS).Some? then k + 1 else Peeked(ps, k + 1)
  {
    hide Hit, Joined;
  }

  lemma Nothing(ps: seq<Piece>)
    ensures Joined(ps[..0]) == "" && Joined([]) == "" && Hit("", PATTERNS).None?
  {
    assert ps[..0] == [];
    assert !OccursAt("", PATTERNS[0], 0) && !OccursAt("", PATTERNS[1], 0);
  }

  /** The replacement body: the chunks already read, then what upstream still gives. */
  method Replay(chunks: seq<Piece>, upstream: Upstream) returns (sent: seq<Piece>, last: Read)
    requires upstream.Valid()
    modifies upstream
    ensures sent == chunks + upstream.pieces[old(upstream.pos)..]
    ensures last == if upstream.breaks then Broken else Finished
  {
    sent := chunks;
    last := upstream.Next();
    while last.Value?
      invariant upstream.Valid()
      invariant last.Value? ==> upstream.pos > 0 && last.piece == upstream.pieces[upstream.pos - 1]
      invariant old(upstream.pos) <= upstream.pos - (if last.Value? then 1 else 0)
      invariant sent == chunks + upstream.pieces[old(upstream.pos)..upstream.pos - (if last.Value? then 1 else 0)]
      invariant !last.Value? ==>
                  upstream.pos == |upstream.pieces| && last == if upstream.breaks then Broken else Finished
      decreases |upstream.pieces| - upstream.pos, last.Value?
    {
      sent := sent + [last.piece];
      last := upstream.Next();
    }
  }

  /** Peeking and replaying is the same as not peeking: the client gets every chunk once, in order, and
      the same end. */
  method PeekAndReplay(upstream: Upstream) returns (matched: Option<string>, sent: seq<Piece>, last: Read)
    requires upstream.Valid() && upstream.pos == 0
    modifies upstream
    ensures sent == upstream.pieces
    ensures last == if upstream.breaks then Broken else Finished
    ensures matched.Some? <==> Hit(Joined(upstream.pieces[..Window(upstream.pieces, 0)]), PATTERNS).Some?
  {
    hide Hit, Joined;
    var chunks;
    matched, chunks := PeekSseOverloaded(upstream);
    ghost var at := upstream.pos;
    sent, last := Replay(chunks, upstream);
    assert upstream.pieces[..at] + upstream.pieces[at..] == upstream.pieces;
  }

  /** A response whose first chunk came too late; one that broke before any chunk and is passed on as it
      is; or one put together again, with the chunks it sends and its end. */
  datatype Guarded = TimedOut | PassedOn | Rebuilt(sent: seq<Piece>, last: Read)

  /** awaitFirstChunk. `late` says that the time ran out before the first read came back. */
  method AwaitFirstChunk(upstream: Upstream, late: bool) returns (g: Guarded)
    requires upstream.Valid() && upstream.pos == 0
    modifies upstream
    ensures g.TimedOut? <==> late
    ensures g.PassedOn? <==> !late && upstream.pieces == [] && upstream.breaks
    ensures g.Rebuilt? ==> g.sent == upstream.pieces && g.last == if upstream.breaks then Broken else Finished
  {
    var first := upstream.Next();
    if late { return TimedOut; }
    match first
    case Broken => return PassedOn;
    case Finished => return Rebuilt([], Finished);
    case Value(piece) =>
      var sent, last := Replay([piece], upstream);
      return Rebuilt(sent, last);
  }
}
