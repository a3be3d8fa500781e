/**
 * The records of a MusicBrainz disc-id lookup response (src/mb.rs), reduced to
 * the fields the client reads, and the construction of a release's artist
 * string from its ordered artist credits.
 */
module MbRecords {
  import opened Wrappers

  /** Rust's `u32`. */
  newtype uint32 = x: int | 0 <= x < 0x1_0000_0000

  /** One credited artist of a release: the name as credited and the literal
      text that joins it to the next credit (often "" or " & "). */
  datatype ArtistCredit = ArtistCredit(name: string, joinphrase: string)

  datatype Track = Track(id: string, number: string, position: uint32, title: string)

  /** One medium (one physical disc) of a release. */
  datatype Media = Media(format: string, position: uint32, title: string, trackCount: uint32, tracks: seq<Track>)

  datatype Release = Release(
    artistCredit: seq<ArtistCredit>,
    barcode: Option<string>,
    id: string,
    media: seq<Media>,
    title: string)
  {
    /** `Release::artist_string`: the display string of the release's artists,
        the release's credits joined by `JoinCredits`. */
    function ArtistString(): (s: string)
      ensures artistCredit == [] ==> s == ""
      ensures |s| == CreditsLength(artistCredit)
    {
      JoinCredits(artistCredit)
    }
  }

  /** The decoded answer to a disc-id lookup: the disc id and every release
      that has a medium carrying it. */
  datatype DiscId = DiscId(id: string, releases: seq<Release>)

  /** The iterator of `flat_map`: each credit yields its name, then its join phrase. */
  function CreditPieces(credits: seq<ArtistCredit>): (pieces: seq<string>)
    ensures |pieces| == 2 * |credits|
    ensures forall k :: 0 <= k < |credits| ==>
      pieces[2 * k] == credits[k].name && pieces[2 * k + 1] == credits[k].joinphrase
  {
    if credits == [] then []
    else
      var rest := CreditPieces(credits[1..]);
      assert forall k :: 1 <= k < |credits| ==> credits[1..][k - 1] == credits[k];
      [credits[0].name, credits[0].joinphrase] + rest
  }

  /** `collect::<String>()` over string slices: concatenation in order, nothing in between. */
  function Concat(parts: seq<string>): string
  {
    if parts == [] then "" else parts[0] + Concat(parts[1..])
  }

  /** The sum over all credits of the lengths of name and join phrase. */
  function CreditsLength(credits: seq<ArtistCredit>): nat
  {
    if credits == [] then 0
    else |credits[0].name| + |credits[0].joinphrase| + CreditsLength(credits[1..])
  }

  lemma {:induction false} CreditPiecesAppend(a: seq<ArtistCredit>, b: seq<ArtistCredit>)
    ensures CreditPieces(a + b) == CreditPieces(a) + CreditPieces(b)
  {
    if a == [] {
      assert a + b == b;
    } else {
      assert (a + b)[1..] == a[1..] + b;
      CreditPiecesAppend(a[1..], b);
    }
  }

  lemma {:induction false} ConcatAppend(x: seq<string>, y: seq<string>)
    ensures Concat(x + y) == Concat(x) + Concat(y)
  {
    if x == [] {
      assert x + y == y;
    } else {
      assert (x + y)[1..] == x[1..] + y;
      ConcatAppend(x[1..], y);
    }
  }

  /** One credit followed by more: its name, then its join phrase, then the rest. */
  lemma JoinCreditsCons(c: ArtistCredit, cs: seq<ArtistCredit>)
    ensures JoinCredits([c] + cs) == c.name + c.joinphrase + JoinCredits(cs)
  {
    var p := CreditPieces(cs);
    assert CreditPieces([c] + cs) == [c.name, c.joinphrase] + p by {
      assert ([c] + cs)[1..] == cs;
    }
    assert ([c.name, c.joinphrase] + p)[1..] == [c.joinphrase] + p;
    assert ([c.joinphrase] + p)[1..] == p;
    assert Concat([c.joinphrase] + p) == c.joinphrase + Concat(p);
    assert Concat([c.name, c.joinphrase] + p) == c.name + (c.joinphrase + Concat(p));
  }

  lemma {:induction false} ConcatPiecesLength(credits: seq<ArtistCredit>)
    ensures |Concat(CreditPieces(credits))| == CreditsLength(credits)
  {
    if credits != [] {
      var p := CreditPieces(credits[1..]);
      assert CreditPieces(credits) == [credits[0].name, credits[0].joinphrase] + p;
      assert ([credits[0].name, credits[0].joinphrase] + p)[1..] == [credits[0].joinphrase] + p;
      assert ([credits[0].joinphrase] + p)[1..] == p;
      ConcatPiecesLength(credits[1..]);
    }
  }

  /** Release::artist_string over a list of credits: every credit's name
      immediately followed by its join phrase, in order, with no separator. */
  function JoinCredits(credits: seq<ArtistCredit>): (s: string)
    ensures credits == [] ==> s == ""
    ensures |s| == CreditsLength(credits)
  {
    ConcatPiecesLength(credits);
    Concat(CreditPieces(credits))
  }

  /** Joining distributes over concatenation of credit lists. */
  lemma JoinCreditsAppend(a: seq<ArtistCredit>, b: seq<ArtistCredit>)
    ensures JoinCredits(a + b) == JoinCredits(a) + JoinCredits(b)
  {
    CreditPiecesAppend(a, b);
    ConcatAppend(CreditPieces(a), CreditPieces(b));
  }

  /** Every credit appears in place: what precedes credit k is the joined
      credits before it, what follows its join phrase is the joined credits after it. */
  lemma JoinCreditsAt(credits: seq<ArtistCredit>, k: nat)
    requires k < |credits|
    ensures JoinCredits(credits) ==
      JoinCredits(credits[..k]) + credits[k].name + credits[k].joinphrase + JoinCredits(credits[k + 1..])
  {
    assert credits == credits[..k] + ([credits[k]] + credits[k + 1..]);
    JoinCreditsAppend(credits[..k], [credits[k]] + credits[k + 1..]);
    JoinCreditsCons(credits[k], credits[k + 1..]);
  }

  /** The worked example: a release credited to "Air" joined by " & " to "Varda". */
  lemma AirAndVarda(r: Release)
    requires r.artistCredit == [ArtistCredit("Air", " & "), ArtistCredit("Varda", "")]
    ensures r.ArtistString() == "Air & Varda"
  {
    JoinCreditsCons(ArtistCredit("Air", " & "), [ArtistCredit("Varda", "")]);
    JoinCreditsCons(ArtistCredit("Varda", ""), []);
  }
}
