/** The isotope matching game of the economic comparison module: isotopes
    are dragged onto their applications, a drop on the right slot records
    the pair, and a banner appears once the record is as long as the game. */
module EconomicComparison {
  import opened Common

  datatype MatchItem = MatchItem(id: int, isotope: string, benefit: string)

  const MatchingGame: seq<MatchItem> := [
    MatchItem(1, "Tc-99m", "Medical Imaging"),
    MatchItem(2, "Co-60", "Cancer Treatment"),
    MatchItem(3, "I-131", "Thyroid Treatment"),
    MatchItem(4, "Cs-137", "Industrial Gauging")
  ]

  /** No two entries of a list share an id. */
  predicate IdsDistinct(items: seq<MatchItem>) {
    forall i, j :: 0 <= i < j < |items| ==> items[i].id != items[j].id
  }

  /** `matchedPairs.find(pair => pair.id === id)` finds something. */
  predicate HasId(pairs: seq<MatchItem>, id: int) {
    exists k :: 0 <= k < |pairs| && pairs[k].id == id
  }

  /** Every entry of the game's list has its slot shown as matched. */
  predicate AllSlotsMatched(game: seq<MatchItem>, pairs: seq<MatchItem>) {
    forall k :: 0 <= k < |game| ==> HasId(pairs, game[k].id)
  }

  /** In a list with distinct ids, an entry is found once its id is. */
  lemma {:induction false} HasIdMeansIn(game: seq<MatchItem>, pairs: seq<MatchItem>, item: MatchItem)
    requires IdsDistinct(game) && item in game
    requires forall p :: p in pairs ==> p in game
    ensures HasId(pairs, item.id) <==> item in pairs
  {
    if HasId(pairs, item.id) {
      var k :| 0 <= k < |pairs| && pairs[k].id == item.id;
      assert pairs[k] in pairs;
      var a :| 0 <= a < |game| && game[a] == pairs[k];
      var b :| 0 <= b < |game| && game[b] == item;
      assert a == b;
    }
  }

  lemma {:induction false} MatchingGameIdsDistinct()
    ensures IdsDistinct(MatchingGame)
  {
  }

  /** With no entry recorded twice, the length test is the right test: the
      record is as long as the game exactly when every slot is matched. */
  lemma {:induction false} LengthTestIffAllMatched(game: seq<MatchItem>, pairs: seq<MatchItem>)
    requires IdsDistinct(game) && IdsDistinct(pairs)
    requires forall p :: p in pairs ==> p in game
    ensures |pairs| == |game| <==> AllSlotsMatched(game, pairs)
  {
    var G := set x | x in game;
    var P := set x | x in pairs;
    assert Distinct(game) && Distinct(pairs);
    DistinctSetSize(game);
    DistinctSetSize(pairs);
    assert P <= G;
    assert G == P + (G - P);
    assert |G| == |P| + |G - P|;
    if |pairs| == |game| {
      assert G - P == {};
      forall k | 0 <= k < |game| ensures HasId(pairs, game[k].id) {
        assert game[k] in P;
        HasIdMeansIn(game, pairs, game[k]);
      }
    }
    if AllSlotsMatched(game, pairs) {
      forall x | x in G ensures x in P {
        var k :| 0 <= k < |game| && game[k] == x;
        HasIdMeansIn(game, pairs, x);
      }
      assert G <= P;
      assert G - P == {};
    }
  }

  /** The game board: the list it is played over, the item being dragged
      and the recorded matches, oldest first. */
  class MatchingBoard {
    const game: seq<MatchItem>
    var draggedItem: Option<MatchItem>
    var matchedPairs: seq<MatchItem>

    /** Every recorded pair is an entry of the game's list. */
    ghost predicate Valid()
      reads this
    {
      forall p :: p in matchedPairs ==> p in game
    }

    constructor (game: seq<MatchItem>)
      ensures this.game == game && draggedItem == None && matchedPairs == []
      ensures Valid()
    {
      this.game := game;
      draggedItem := None;
      matchedPairs := [];
    }

    /** `onDragStart` on isotope `k`: any isotope can be picked up, matched or not. */
    method DragStart(k: nat)
      requires k < |game|
      modifies this
      ensures draggedItem == Some(game[k]) && matchedPairs == old(matchedPairs)
    {
      draggedItem := Some(game[k]);
    }

    /** `onDrop` on application slot `k`: the slot's entry is appended and
        the drag cleared when the dragged id is the slot's; otherwise nothing
        changes. Nothing stops an entry being appended again. */
    method Drop(k: nat)
      requires k < |game| && Valid()
      modifies this
      ensures old(draggedItem).Some? && old(draggedItem).value.id == game[k].id ==>
        matchedPairs == old(matchedPairs) + [game[k]] && draggedItem == None
      ensures !(old(draggedItem).Some? && old(draggedItem).value.id == game[k].id) ==>
        matchedPairs == old(matchedPairs) && draggedItem == old(draggedItem)
      ensures Valid()
    {
      if draggedItem.Some? && draggedItem.value.id == game[k].id {
        matchedPairs := matchedPairs + [game[k]];
        draggedItem := None;
      }
    }

    /** A drop that also refuses an entry already recorded, so no entry is
        recorded twice and the length test means what the banner says. */
    method DropOnce(k: nat)
      requires k < |game| && Valid()
      modifies this
      ensures (old(draggedItem).Some? && old(draggedItem).value.id == game[k].id
               && !HasId(old(matchedPairs), game[k].id)) ==>
        matchedPairs == old(matchedPairs) + [game[k]] && draggedItem == None
      ensures HasId(old(matchedPairs), game[k].id) ==> matchedPairs == old(matchedPairs)
      ensures old(draggedItem).Some? && old(draggedItem).value.id == game[k].id ==> draggedItem == None
      ensures !(old(draggedItem).Some? && old(draggedItem).value.id == game[k].id) ==>
        matchedPairs == old(matchedPairs) && draggedItem == old(draggedItem)
      ensures Valid()
      ensures old(IdsDistinct(matchedPairs)) ==> IdsDistinct(matchedPairs)
    {
      if draggedItem.Some? && draggedItem.value.id == game[k].id {
        if !HasId(matchedPairs, game[k].id) {
          matchedPairs := matchedPairs + [game[k]];
        }
        draggedItem := None;
      }
    }

    /** Slot `k` is drawn as matched: its id occurs in the record. */
    predicate SlotMatched(k: nat)
      reads this
      requires k < |game|
    {
      HasId(matchedPairs, game[k].id)
    }

    /** The congratulation banner: the record is as long as the game. */
    predicate ShowsBanner()
      reads this
    {
      |matchedPairs| == |game|
    }

    /** While no entry is recorded twice (as under `DropOnce`), the banner
        is shown exactly when every slot is drawn as matched. */
    lemma {:induction false} BannerIffAllSlotsMatched()
      requires Valid() && IdsDistinct(game) && IdsDistinct(matchedPairs)
      ensures ShowsBanner() <==> AllSlotsMatched(game, matchedPairs)
    {
      LengthTestIffAllMatched(game, matchedPairs);
    }
  }

  /** Dragging Tc-99m onto its own slot four times records it four times:
      the banner appears while the other three slots are still unmatched. */
  method RepeatedDropsShowBanner() returns (banner: bool, secondMatched: bool)
    ensures banner && !secondMatched
  {
    var board := new MatchingBoard(MatchingGame);
    var n := 0;
    while n < 4
      invariant 0 <= n <= 4 && board.game == MatchingGame
      invariant board.matchedPairs == seq(n, _ => MatchingGame[0])
      invariant board.Valid()
    {
      board.DragStart(0);
      board.Drop(0);
      n := n + 1;
    }
    banner := board.ShowsBanner();
    secondMatched := board.SlotMatched(1);
  }

  /** With the refusing drop the same four drags record one entry, and the
      banner appears only once every slot is matched. */
  method RepeatedDropsOnce() returns (banner: bool, recorded: nat)
    ensures !banner && recorded == 1
  {
    var board := new MatchingBoard(MatchingGame);
    var n := 0;
    while n < 4
      invariant 0 <= n <= 4 && board.game == MatchingGame
      invariant board.matchedPairs == if n == 0 then [] else [MatchingGame[0]]
      invariant board.Valid()
    {
      board.DragStart(0);
      board.DropOnce(0);
      n := n + 1;
    }
    banner := board.ShowsBanner();
    recorded := |board.matchedPairs|;
  }
}
