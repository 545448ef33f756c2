/** The static catalogue of six wisdom cards, one per face, and the edge
    length of the cube. */
module Catalogue {
  import opened Types

  /** Edge length of the cube, in pixels. */
  const CubeSize: nat := 200

  const WisdomData: seq<Wisdom> := [
    Wisdom(1, Front, "IDE Synergy", "Code for your tools.", "bg-blue-600", "Code"),
    Wisdom(2, Back, "Ban Magic", "Explicit is better than implicit.", "bg-rose-600", "Wand2"),
    Wisdom(3, Right, "Value Objects", "Upgrade arrays to objects.", "bg-emerald-600", "BoxSelect"),
    Wisdom(4, Left, "Generic Contracts", "Replace magic with templates.", "bg-purple-600", "Type"),
    Wisdom(5, Top, "Refactorable Code", "Avoid string typing.", "bg-amber-600", "ShieldAlert"),
    Wisdom(6, Bottom, "Automated Defense", "Trust CI, not discipline.", "bg-cyan-600", "Bot")
  ]

  /** The catalogue lists the faces in FaceOrder and numbers its entries
      1 to 6 in that order. */
  lemma CatalogueLayout()
    ensures |WisdomData| == |FaceOrder| == 6
    ensures forall i :: 0 <= i < |WisdomData| ==> WisdomData[i].face == FaceOrder[i]
    ensures forall i :: 0 <= i < |WisdomData| ==> WisdomData[i].id == i + 1
  {
  }

  /** No face and no id occurs twice. */
  lemma CatalogueEntriesDistinct()
    ensures forall i, j :: 0 <= i < j < |WisdomData| ==> WisdomData[i].face != WisdomData[j].face
    ensures forall i, j :: 0 <= i < j < |WisdomData| ==> WisdomData[i].id != WisdomData[j].id
  {
  }

  /** `Array.prototype.find` with the predicate `w.face === f`: the first
      entry of `ws` on face `f`, or None when there is none. */
  function Find(ws: seq<Wisdom>, f: Face): (r: Option<Wisdom>)
    ensures r.Some? ==> r.value in ws && r.value.face == f
    ensures r.None? <==> forall i :: 0 <= i < |ws| ==> ws[i].face != f
  {
    if ws == [] then None
    else if ws[0].face == f then Some(ws[0])
    else
      var r := Find(ws[1..], f);
      assert forall i :: 1 <= i < |ws| ==> ws[i] == ws[1..][i - 1];
      r
  }

  /** Find returns the entry at the first index on face `f`. */
  lemma {:induction false} FindLocates(ws: seq<Wisdom>, i: nat, f: Face)
    requires i < |ws| && ws[i].face == f
    requires forall j :: 0 <= j < i ==> ws[j].face != f
    ensures Find(ws, f) == Some(ws[i])
  {
    if i > 0 {
      FindLocates(ws[1..], i - 1, f);
    }
  }

  /** The catalogue lookup by face. */
  function FindByFace(f: Face): (r: Option<Wisdom>)
    ensures r.Some? ==> r.value in WisdomData && r.value.face == f
  {
    Find(WisdomData, f)
  }

  /** Because every face has an entry, the lookup by face never fails, and it
      returns that face's entry. */
  lemma FindByFaceSucceeds(f: Face)
    ensures FindByFace(f) == Some(WisdomData[Index(f)])
    ensures FindByFace(f).value.face == f
  {
  }

  /** The first entry, shown before any spin or snap, is the Front card. */
  lemma InitialWisdomIsFront()
    ensures WisdomData[0].face == Front && WisdomData[0].id == 1
    ensures FindByFace(Front) == Some(WisdomData[0])
  {
  }
}
