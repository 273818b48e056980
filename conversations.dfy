/**
 * The operations the page applies to its ordered list of conversations and
 * its map of transcripts: the id set, the max+1 id choice, the retitling
 * `map`, the deleting `filter` and the `convMessages[id] || []` lookup.
 */
module ConversationList {
  import opened ChatTypes

  /** The ids that occur in the list. */
  function Ids(cs: seq<Conversation>): set<int> {
    if cs == [] then {} else {cs[0].id} + Ids(cs[1..])
  }

  /** No id occurs twice in the list. */
  ghost predicate UniqueIds(cs: seq<Conversation>) {
    cs == [] || (cs[0].id !in Ids(cs[1..]) && UniqueIds(cs[1..]))
  }

  /** Every conversation's id is in the id set, and every id in the set belongs to one of them. */
  lemma {:induction false} IdsMembers(cs: seq<Conversation>)
    ensures forall k :: 0 <= k < |cs| ==> cs[k].id in Ids(cs)
    ensures forall x :: x in Ids(cs) ==> exists k :: 0 <= k < |cs| && cs[k].id == x
  {
    if cs != [] {
      IdsMembers(cs[1..]);
      forall x | x in Ids(cs) ensures exists k :: 0 <= k < |cs| && cs[k].id == x {
        if x != cs[0].id {
          var k :| 0 <= k < |cs| - 1 && cs[1..][k].id == x;
          assert cs[k + 1].id == x;
        }
      }
    }
  }

  /** A list with unique ids has distinct ids at any two distinct positions. */
  lemma {:induction false} UniqueIdsDistinct(cs: seq<Conversation>)
    requires UniqueIds(cs)
    ensures forall i, j :: 0 <= i < j < |cs| ==> cs[i].id != cs[j].id
  {
    if cs != [] {
      UniqueIdsDistinct(cs[1..]);
      IdsMembers(cs[1..]);
      forall i, j | 0 <= i < j < |cs| ensures cs[i].id != cs[j].id {
        assert cs[j].id == cs[1..][j - 1].id;
        if i > 0 {
          assert cs[i].id == cs[1..][i - 1].id;
        }
      }
    }
  }

  function Max(a: int, b: int): int {
    if a < b then b else a
  }

  /** `Math.max(...cs.map(c => c.id))` on a non-empty list: an id of the list, and no id exceeds it. */
  function MaxId(cs: seq<Conversation>): (r: int)
    requires cs != []
    ensures r in Ids(cs)
    ensures forall k :: 0 <= k < |cs| ==> cs[k].id <= r
  {
    if |cs| == 1 then cs[0].id
    else
      var m := MaxId(cs[1..]);
      assert forall k :: 1 <= k < |cs| ==> cs[k] == cs[1..][k - 1];
      Max(cs[0].id, m)
  }

  /**
   * The id `startNewChat` gives a new conversation: 1 for an empty list, else
   * the largest id plus one, so it exceeds every id in the list.
   */
  function NextId(cs: seq<Conversation>): (r: int)
    ensures forall k :: 0 <= k < |cs| ==> cs[k].id < r
    ensures r !in Ids(cs)
    ensures cs == [] ==> r == 1
    ensures cs != [] ==> r - 1 in Ids(cs)
  {
    IdsMembers(cs);
    if |cs| > 0 then MaxId(cs) + 1 else 1
  }

  /**
   * `cs.map(conv => conv.id === id ? {...conv, title} : conv)`: same length,
   * same ids and timestamps in the same places; only entries with id `id`
   * change, and they get `title`.
   */
  function Retitle(cs: seq<Conversation>, id: int, title: string): (r: seq<Conversation>)
    ensures |r| == |cs| && Ids(r) == Ids(cs)
    ensures UniqueIds(cs) ==> UniqueIds(r)
    ensures forall k :: 0 <= k < |cs| ==> r[k].id == cs[k].id && r[k].timestamp == cs[k].timestamp
    ensures forall k :: 0 <= k < |cs| && cs[k].id != id ==> r[k] == cs[k]
    ensures forall k :: 0 <= k < |cs| && cs[k].id == id ==> r[k].title == title
  {
    if cs == [] then []
    else
      var head := if cs[0].id == id then cs[0].(title := title) else cs[0];
      var rest := Retitle(cs[1..], id, title);
      var r := [head] + rest;
      assert r[1..] == rest;
      assert forall k :: 1 <= k < |cs| ==> cs[k] == cs[1..][k - 1] && r[k] == rest[k - 1];
      r
  }

  /** `cs.filter(c => c.id !== id)`: no entry with id `id` is left, and the others' ids all remain. */
  function Without(cs: seq<Conversation>, id: int): (r: seq<Conversation>)
    ensures |r| <= |cs|
    ensures Ids(r) == Ids(cs) - {id}
    ensures UniqueIds(cs) ==> UniqueIds(r)
  {
    if cs == [] then []
    else if cs[0].id == id then Without(cs[1..], id)
    else
      var r := [cs[0]] + Without(cs[1..], id);
      assert r[1..] == Without(cs[1..], id);
      r
  }

  /**
   * The filter keeps exactly the entries whose id differs from `id`, in their
   * original order: `pos` lists their positions in `cs`, strictly increasing,
   * and every position whose id differs from `id` is listed.
   */
  lemma {:induction false} WithoutKeepsOrder(cs: seq<Conversation>, id: int) returns (pos: seq<nat>)
    ensures Embeds(cs, id, Without(cs, id), pos)
  {
    if cs == [] {
      pos := [];
    } else {
      var tail := Without(cs[1..], id);
      var rest := WithoutKeepsOrder(cs[1..], id);
      var shifted := ShiftPositions(cs, id, tail, rest);
      if cs[0].id == id {
        pos := shifted;
        forall j | 0 <= j < |cs| && cs[j].id != id ensures j in pos {
          assert j != 0;
        }
      } else {
        pos := KeepHead(cs, id, tail, shifted);
      }
    }
  }

  /**
   * `pos` places the entries of `r` in `cs`: in increasing order, each at a
   * position holding that very entry, and every entry of `cs` whose id
   * differs from `id` is placed.
   */
  ghost predicate Embeds(cs: seq<Conversation>, id: int, r: seq<Conversation>, pos: seq<nat>) {
    && |pos| == |r|
    && (forall k :: 0 <= k < |pos| ==> pos[k] < |cs| && cs[pos[k]] == r[k])
    && (forall k, l :: 0 <= k < l < |pos| ==> pos[k] < pos[l])
    && (forall j :: 0 <= j < |cs| && cs[j].id != id ==> j in pos)
  }

  /** When the head survives the filter, its position 0 goes in front of the shifted positions of the tail. */
  lemma KeepHead(cs: seq<Conversation>, id: int, tail: seq<Conversation>, shifted: seq<nat>) returns (pos: seq<nat>)
    requires cs != [] && cs[0].id != id
    requires |shifted| == |tail|
    requires forall k :: 0 <= k < |shifted| ==> 1 <= shifted[k] < |cs| && cs[shifted[k]] == tail[k]
    requires forall k, l :: 0 <= k < l < |shifted| ==> shifted[k] < shifted[l]
    requires forall j :: 1 <= j < |cs| && cs[j].id != id ==> j in shifted
    ensures Embeds(cs, id, [cs[0]] + tail, pos)
  {
    pos := [0] + shifted;
    var r := [cs[0]] + tail;
    forall k | 0 <= k < |pos| ensures pos[k] < |cs| && cs[pos[k]] == r[k] {
      if k > 0 {
        assert pos[k] == shifted[k - 1] && r[k] == tail[k - 1];
      }
    }
    forall j | 0 <= j < |cs| && cs[j].id != id ensures j in pos {
      if j > 0 {
        var k :| 0 <= k < |shifted| && shifted[k] == j;
        assert pos[k + 1] == j;
      } else {
        assert pos[0] == j;
      }
    }
  }

  /** Positions of the filtered tail `cs[1..]`, moved one place right so that they index `cs`. */
  lemma ShiftPositions(cs: seq<Conversation>, id: int, tail: seq<Conversation>, rest: seq<nat>) returns (shifted: seq<nat>)
    requires cs != [] && Embeds(cs[1..], id, tail, rest)
    ensures |shifted| == |tail|
    ensures forall k :: 0 <= k < |shifted| ==> 1 <= shifted[k] < |cs| && cs[shifted[k]] == tail[k]
    ensures forall k, l :: 0 <= k < l < |shifted| ==> shifted[k] < shifted[l]
    ensures forall j :: 1 <= j < |cs| && cs[j].id != id ==> j in shifted
  {
    shifted := seq(|rest|, k requires 0 <= k < |rest| => rest[k] + 1);
    forall j | 1 <= j < |cs| && cs[j].id != id ensures j in shifted {
      assert cs[1..][j - 1] == cs[j];
      var k :| 0 <= k < |rest| && rest[k] == j - 1;
      assert shifted[k] == j;
    }
  }

  /** The first entry left after the filter is the first entry of `cs` whose id differs from `id`. */
  lemma {:induction false} WithoutFirst(cs: seq<Conversation>, id: int) returns (j: nat)
    requires Without(cs, id) != []
    ensures j < |cs| && cs[j] == Without(cs, id)[0]
    ensures forall k :: 0 <= k < j ==> cs[k].id == id
  {
    if cs[0].id == id {
      var j' := WithoutFirst(cs[1..], id);
      j := j' + 1;
    } else {
      j := 0;
    }
  }

  /** `convMessages[id] || []`: a stored transcript is always truthy, so `[]` stands in only for a missing key. */
  function Lookup(m: map<int, seq<Message>>, id: int): seq<Message> {
    if id in m then m[id] else []
  }
}
