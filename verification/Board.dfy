/**
 The offer board: readers merge signed post versions as relays deliver them
 (ui/src/core/composables/useBoard.ts), and an author stamps each version strictly after the one
 it replaces (wasm/boardpost.go, wasm/board_api.go). The tie rule is the replaceable-event rule of
 NIP-01, section "Kinds".
 */
module Board {

  /** One verified version of a post; `eventId` is the hash it was signed under. */
  datatype Listing = Listing(author: string, slot: string, publishedAt: int, eventId: string, content: string)

  datatype Key = Key(author: string, slot: string)

  function KeyOf(l: Listing): Key {
    Key(l.author, l.slot)
  }

  /** Lexicographic order on strings. */
  predicate Less(a: string, b: string) {
    b != "" && (a == "" || a[0] < b[0] || (a[0] == b[0] && Less(a[1..], b[1..])))
  }

  /** Newer, or of the same age with the lower event id. */
  predicate Supersedes(next: Listing, held: Listing) {
    if next.publishedAt != held.publishedAt then next.publishedAt > held.publishedAt
    else Less(next.eventId, held.eventId)
  }

  /** One verified listing taken into the list, or refused as older than what is there. */
  function Merge(byKey: map<Key, Listing>, l: Listing): map<Key, Listing> {
    var k := KeyOf(l);
    if k in byKey && !Supersedes(l, byKey[k]) then byKey else byKey[k := l]
  }

  /** What a reader holds after these deliveries, in this order. */
  function MergeAll(ls: seq<Listing>): map<Key, Listing> {
    if ls == [] then map[] else Merge(MergeAll(ls[..|ls| - 1]), ls[|ls| - 1])
  }

  class Reader {
    var byKey: map<Key, Listing>
    ghost var delivered: seq<Listing>

    ghost predicate Valid()
      reads this
    {
      byKey == MergeAll(delivered)
    }

    constructor ()
      ensures Valid() && delivered == []
    {
      byKey := map[];
      delivered := [];
    }

    method Accept(l: Listing)
      requires Valid()
      modifies this
      ensures Valid() && delivered == old(delivered) + [l]
      ensures byKey == Merge(old(byKey), l)
    {
      var key := KeyOf(l);
      delivered := delivered + [l];
      assert delivered[..|delivered| - 1] == old(delivered);
      if key in byKey {
        var held := byKey[key];
        if !Supersedes(l, held) { return; }
      }
      byKey := byKey[key := l];
    }
  }

  // ---------- readers converge ----------

  lemma {:induction false} LessTotal(a: string, b: string)
    ensures Less(a, b) || Less(b, a) || a == b
    ensures !(Less(a, b) && Less(b, a)) && !Less(a, a)
  {
    if a != "" && b != "" && a[0] == b[0] {
      LessTotal(a[1..], b[1..]);
      assert a == [a[0]] + a[1..] && b == [b[0]] + b[1..];
    }
    if a != "" {
      LessTotal(a[1..], a[1..]);
    }
  }

  /** The order of ids is the order of the first character in which they differ, a prefix before what extends it. */
  lemma {:induction false} LessMeans(a: string, b: string)
    ensures Less(a, b) <==> exists k | 0 <= k <= |a| && k < |b| :: a[..k] == b[..k] && (k == |a| || a[k] < b[k])
  {
    if a == "" {
      if b != "" { assert a[..0] == b[..0]; }
    } else if b != "" && a[0] == b[0] {
      LessMeans(a[1..], b[1..]);
      if k :| 0 <= k <= |a[1..]| && k < |b[1..]| && a[1..][..k] == b[1..][..k] && (k == |a[1..]| || a[1..][k] < b[1..][k]) {
        assert a[..k + 1] == [a[0]] + a[1..][..k] && b[..k + 1] == [b[0]] + b[1..][..k];
      }
      if k :| 0 <= k <= |a| && k < |b| && a[..k] == b[..k] && (k == |a| || a[k] < b[k]) {
        assert k > 0;
        assert a[1..][..k - 1] == a[..k][1..] && b[1..][..k - 1] == b[..k][1..];
      }
    } else if b != "" {
      assert a[..0] == b[..0];
      forall k | 0 < k <= |a| && k < |b| ensures a[..k] != b[..k] {
        assert a[..k][0] == a[0] && b[..k][0] == b[0];
      }
    }
  }

  lemma {:induction false} LessTransitive(a: string, b: string, c: string)
    requires Less(a, b) && Less(b, c)
    ensures Less(a, c)
  {
    if a != "" && a[0] == b[0] == c[0] {
      LessTransitive(a[1..], b[1..], c[1..]);
    }
  }

  /** Event ids are hashes of what they name: two versions of a post with one id are one version. */
  ghost predicate IdsIdentify(ls: set<Listing>) {
    forall a, b :: a in ls && b in ls && a.eventId == b.eventId ==> a == b
  }

  function Elements(ls: seq<Listing>): set<Listing> {
    set l | l in ls
  }

  /** `w` is the newest delivered version of its post, the one with the lower id among those of one moment. */
  ghost predicate Newest(w: Listing, ls: set<Listing>) {
    w in ls && forall l :: l in ls && KeyOf(l) == KeyOf(w) ==>
      l == w || w.publishedAt > l.publishedAt || (w.publishedAt == l.publishedAt && Less(w.eventId, l.eventId))
  }

  /** There is at most one such version of a post. */
  lemma NewestUnique(a: Listing, b: Listing, ls: set<Listing>)
    requires Newest(a, ls) && Newest(b, ls) && KeyOf(a) == KeyOf(b)
    ensures a == b
  {
    LessTotal(a.eventId, b.eventId);
  }

  /** Some version of the post `k` is among these. */
  ghost predicate Mentioned(ls: set<Listing>, k: Key) {
    exists l :: l in ls && KeyOf(l) == k
  }

  /** A reader holds, for every post it was told of, the newest version delivered. */
  lemma {:induction false} HoldsNewest(ls: seq<Listing>)
    requires IdsIdentify(Elements(ls))
    ensures forall k :: k in MergeAll(ls) <==> Mentioned(Elements(ls), k)
    ensures forall k :: k in MergeAll(ls) ==> KeyOf(MergeAll(ls)[k]) == k && Newest(MergeAll(ls)[k], Elements(ls))
  {
    if ls != [] {
      var init, last := ls[..|ls| - 1], ls[|ls| - 1];
      assert ls == init + [last];
      assert Elements(ls) == Elements(init) + {last};
      assert IdsIdentify(Elements(init));
      HoldsNewest(init);
      var before, after := MergeAll(init), MergeAll(ls);
      forall k | k in after
        ensures KeyOf(after[k]) == k && Newest(after[k], Elements(ls))
      {
        OneMore(init, last, k);
      }
      forall k ensures k in after <==> Mentioned(Elements(ls), k) {
        if k == KeyOf(last) {
          assert last in Elements(ls);
        } else if k in before {
          var l :| l in Elements(init) && KeyOf(l) == k;
          assert l in Elements(ls);
        }
      }
    }
  }

  /** One more delivery keeps the newest version of the post `k`. */
  lemma OneMore(init: seq<Listing>, last: Listing, k: Key)
    requires IdsIdentify(Elements(init) + {last})
    requires forall j :: j in MergeAll(init) ==> KeyOf(MergeAll(init)[j]) == j && Newest(MergeAll(init)[j], Elements(init))
    requires k !in MergeAll(init) ==> !Mentioned(Elements(init), k)
    requires k in Merge(MergeAll(init), last)
    ensures KeyOf(Merge(MergeAll(init), last)[k]) == k
    ensures Newest(Merge(MergeAll(init), last)[k], Elements(init) + {last})
  {
    hide MergeAll, Less;
    var before := MergeAll(init);
    if k == KeyOf(last) && k in before {
      var held := before[k];
      LessTotal(last.eventId, held.eventId);
      if Supersedes(last, held) {
        forall l | l in Elements(init) && KeyOf(l) == k ensures l == last || Supersedes(last, l) {
          if l != held {
            SupersedesTransitive(last, held, l);
          }
        }
      }
    }
  }

  lemma SupersedesTransitive(a: Listing, b: Listing, c: Listing)
    requires Supersedes(a, b) && Supersedes(b, c)
    ensures Supersedes(a, c)
  {
    if a.publishedAt == b.publishedAt == c.publishedAt {
      LessTransitive(a.eventId, b.eventId, c.eventId);
    }
  }

  /**
   Readers converge: whatever the order and however often each version is delivered, two readers
   told of the same versions hold the same board.
   */
  lemma Converges(a: seq<Listing>, b: seq<Listing>)
    requires Elements(a) == Elements(b) && IdsIdentify(Elements(a))
    ensures MergeAll(a) == MergeAll(b)
  {
    hide MergeAll, Newest, Mentioned, Elements;
    HoldsNewest(a);
    HoldsNewest(b);
    forall k | k in MergeAll(a) ensures MergeAll(a)[k] == MergeAll(b)[k] {
      NewestUnique(MergeAll(a)[k], MergeAll(b)[k], Elements(a));
    }
  }

  // ---------- authors are never outrun by their own past ----------

  /** The timestamp of a version sealed at `now` over one stamped `notBefore`. */
  function SealedAt(now: int, notBefore: int): int {
    if now <= notBefore then notBefore + 1 else now
  }

  /**
   One post as its author's browser keeps it. `publishedAt` is the stamp of the last version
   published and the floor under the next; the hash of an event is a parameter.
   */
  class MyPost {
    const author: string
    const slot: string
    const hash: (string, int) -> string
    var publishedAt: int
    ghost var versions: seq<Listing>

    ghost predicate Valid()
      reads this
    {
      && versions != []
      && versions[|versions| - 1].publishedAt == publishedAt
      && Rising(versions)
      && forall l :: l in versions ==> KeyOf(l) == Key(author, slot)
    }

    /** The first publication, which nothing precedes. */
    constructor Publish(author: string, slot: string, content: string, hash: (string, int) -> string, now: int)
      ensures Valid() && this.author == author && this.slot == slot && this.hash == hash
      ensures versions == [Listing(author, slot, SealedAt(now, 0), hash(content, SealedAt(now, 0)), content)]
    {
      this.author, this.slot, this.hash := author, slot, hash;
      publishedAt := SealedAt(now, 0);
      versions := [Listing(author, slot, SealedAt(now, 0), hash(content, SealedAt(now, 0)), content)];
    }

    /** An edit, a renewal or a withdrawal: a new version of the same slot, whatever the clock reads. */
    method Republish(content: string, now: int) returns (l: Listing)
      requires Valid()
      modifies this
      ensures Valid() && versions == old(versions) + [l]
      ensures l == Listing(author, slot, SealedAt(now, old(publishedAt)), hash(content, SealedAt(now, old(publishedAt))), content)
    {
      var createdAt := now;
      if createdAt <= publishedAt {
        createdAt := publishedAt + 1;
      }
      l := Listing(author, slot, createdAt, hash(content, createdAt), content);
      publishedAt := createdAt;
      versions := versions + [l];
    }
  }

  /** Each version is stamped after every earlier one. */
  ghost predicate Rising(vs: seq<Listing>) {
    forall i, j :: 0 <= i < j < |vs| ==> vs[i].publishedAt < vs[j].publishedAt
  }

  /**
   The author's last word wins: once a reader has been told of all versions of a post, in any
   order and amid any other posts, it holds the last one published.
   */
  lemma LastVersionWins(vs: seq<Listing>, delivered: seq<Listing>, k: Key)
    requires vs != [] && Rising(vs) && forall l :: l in vs ==> KeyOf(l) == k
    requires forall l :: l in vs ==> l in delivered
    requires forall l :: l in delivered && KeyOf(l) == k ==> l in vs
    requires IdsIdentify(Elements(delivered))
    ensures k in MergeAll(delivered) && MergeAll(delivered)[k] == vs[|vs| - 1]
  {
    hide MergeAll, Less;
    HoldsNewest(delivered);
    var last := vs[|vs| - 1];
    assert last in delivered && KeyOf(last) == k;
    assert Newest(last, Elements(delivered));
    NewestUnique(MergeAll(delivered)[k], last, Elements(delivered));
  }
}
