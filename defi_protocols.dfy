/**
 * DeFiProtocols.tsx: the tab filter over the DeFi positions, the choice of
 * what the card shows, and the position type label.
 */
module DeFiProtocols {
  import opened Js
  import opened DeFiPositions

  /** The four tabs: 'all' and one per position type. */
  datatype Tab = AllTab | TypeTab(kind: PositionType)

  /** `activeTab === 'all' || position.type === activeTab`. */
  predicate Accepts(tab: Tab, p: DeFiPosition) {
    tab.AllTab? || tab == TypeTab(p.kind)
  }

  /** `filteredPositions`. */
  function FilterPositions(positions: seq<DeFiPosition>, tab: Tab): seq<DeFiPosition> {
    Filter(positions, (p: DeFiPosition) => Accepts(tab, p))
  }

  /** Filtering a non-empty list: the head, if accepted, then the filtered tail. */
  lemma FilterPositionsCons(positions: seq<DeFiPosition>, tab: Tab)
    requires positions != []
    ensures FilterPositions(positions, tab)
            == (if Accepts(tab, positions[0]) then [positions[0]] else []) + FilterPositions(positions[1..], tab)
  {
  }

  /** The 'all' tab shows the positions unchanged. */
  lemma AllTabIsIdentity(positions: seq<DeFiPosition>)
    ensures FilterPositions(positions, AllTab) == positions
  {
    FilterKeepsAll(positions, (p: DeFiPosition) => Accepts(AllTab, p));
  }

  /** A type tab shows exactly the positions of that type, in their original order. */
  lemma TypeTabSelectsType(positions: seq<DeFiPosition>, kind: PositionType)
    ensures var r := FilterPositions(positions, TypeTab(kind));
            IsSubsequence(r, positions)
            && (forall k :: 0 <= k < |r| ==> r[k].kind == kind)
            && (forall k :: 0 <= k < |positions| && positions[k].kind == kind ==> positions[k] in r)
  {
    FilterIsSubsequence(positions, (p: DeFiPosition) => Accepts(TypeTab(kind), p));
    FilterMembers(positions, (p: DeFiPosition) => Accepts(TypeTab(kind), p));
  }

  /** The lending, liquidity and staking tabs split the 'all' tab: together they hold every position exactly once. */
  lemma {:induction false} TypeTabsPartition(positions: seq<DeFiPosition>)
    ensures multiset(FilterPositions(positions, TypeTab(Lending)))
            + multiset(FilterPositions(positions, TypeTab(Liquidity)))
            + multiset(FilterPositions(positions, TypeTab(Staking)))
            == multiset(FilterPositions(positions, AllTab))
  {
    AllTabIsIdentity(positions);
    if positions != [] {
      var x, rest := positions[0], positions[1..];
      TypeTabsPartition(rest);
      AllTabIsIdentity(rest);
      var a := FilterPositions(rest, TypeTab(Lending));
      var b := FilterPositions(rest, TypeTab(Liquidity));
      var c := FilterPositions(rest, TypeTab(Staking));
      FilterPositionsCons(positions, TypeTab(Lending));
      FilterPositionsCons(positions, TypeTab(Liquidity));
      FilterPositionsCons(positions, TypeTab(Staking));
      assert multiset(positions) == multiset{x} + multiset(rest) by {
        assert positions == [x] + rest;
      }
      match x.kind
      case Lending =>
        assert FilterPositions(positions, TypeTab(Lending)) == [x] + a;
        assert FilterPositions(positions, TypeTab(Liquidity)) == b;
        assert FilterPositions(positions, TypeTab(Staking)) == c;
        assert multiset([x] + a) == multiset{x} + multiset(a);
      case Liquidity =>
        assert FilterPositions(positions, TypeTab(Lending)) == a;
        assert FilterPositions(positions, TypeTab(Liquidity)) == [x] + b;
        assert FilterPositions(positions, TypeTab(Staking)) == c;
        assert multiset([x] + b) == multiset{x} + multiset(b);
      case Staking =>
        assert FilterPositions(positions, TypeTab(Lending)) == a;
        assert FilterPositions(positions, TypeTab(Liquidity)) == b;
        assert FilterPositions(positions, TypeTab(Staking)) == [x] + c;
        assert multiset([x] + c) == multiset{x} + multiset(c);
    }
  }

  /** Filtering the suffix from index k: position k, if accepted, then the filtered rest. */
  lemma FilterSuffix(ps: seq<DeFiPosition>, tab: Tab, k: nat)
    requires k < |ps|
    ensures FilterPositions(ps[k..], tab)
            == (if Accepts(tab, ps[k]) then [ps[k]] else []) + FilterPositions(ps[k + 1..], tab)
  {
    assert ps[k..][0] == ps[k] && ps[k..][1..] == ps[k + 1..];
    FilterPositionsCons(ps[k..], tab);
  }

  /** The positions a tab keeps at index k, as a list of zero or one. */
  function Kept(ps: seq<DeFiPosition>, tab: Tab, k: nat): seq<DeFiPosition>
    requires k < |ps|
  {
    if Accepts(tab, ps[k]) then [ps[k]] else []
  }

  /** Filtering a list of positions, written out for a list of six. */
  lemma FilterSix(ps: seq<DeFiPosition>, tab: Tab)
    requires |ps| == 6
    ensures FilterPositions(ps, tab)
            == Kept(ps, tab, 0) + (Kept(ps, tab, 1) + (Kept(ps, tab, 2)
               + (Kept(ps, tab, 3) + (Kept(ps, tab, 4) + Kept(ps, tab, 5)))))
  {
    FilterSuffix(ps, tab, 5);
    assert ps[6..] == [];
    var f5 := Kept(ps, tab, 5);
    assert FilterPositions(ps[5..], tab) == f5;
    FilterSuffix(ps, tab, 4);
    var f4 := Kept(ps, tab, 4) + f5;
    assert FilterPositions(ps[4..], tab) == f4;
    FilterSuffix(ps, tab, 3);
    var f3 := Kept(ps, tab, 3) + f4;
    assert FilterPositions(ps[3..], tab) == f3;
    FilterSuffix(ps, tab, 2);
    var f2 := Kept(ps, tab, 2) + f3;
    assert FilterPositions(ps[2..], tab) == f2;
    FilterSuffix(ps, tab, 1);
    var f1 := Kept(ps, tab, 1) + f2;
    assert FilterPositions(ps[1..], tab) == f1;
    FilterSuffix(ps, tab, 0);
    assert ps[0..] == ps;
  }

  /** On the mock table the lending tab shows ids 1, 2 and 5. */
  lemma MockLendingTab()
    ensures Ids(FilterPositions(MockPositions(), TypeTab(Lending))) == ["1", "2", "5"]
  {
    FilterSix(MockPositions(), TypeTab(Lending));
  }

  /** On the mock table the liquidity tab shows ids 3 and 6. */
  lemma MockLiquidityTab()
    ensures Ids(FilterPositions(MockPositions(), TypeTab(Liquidity))) == ["3", "6"]
  {
    FilterSix(MockPositions(), TypeTab(Liquidity));
  }

  /** On the mock table the staking tab shows id 4 alone. */
  lemma MockStakingTab()
    ensures Ids(FilterPositions(MockPositions(), TypeTab(Staking))) == ["4"]
  {
    FilterSix(MockPositions(), TypeTab(Staking));
  }

  /** What the card shows. */
  datatype DeFiBody = Skeletons | NoPositions | Cards(positions: seq<DeFiPosition>)

  /** Loading outranks the empty state; the empty state appears exactly when the filtered list is empty. */
  function BodyFor(isLoading: bool, positions: seq<DeFiPosition>, tab: Tab): (b: DeFiBody)
    ensures isLoading <==> b == Skeletons
    ensures b == NoPositions <==> !isLoading && FilterPositions(positions, tab) == []
    ensures b.Cards? ==> b.positions == FilterPositions(positions, tab) && b.positions != []
  {
    var filtered := FilterPositions(positions, tab);
    if isLoading then Skeletons
    else if filtered == [] then NoPositions
    else Cards(filtered)
  }

  /** The source's spelling of a position type. */
  function TypeName(kind: PositionType): string {
    match kind
    case Lending => "lending"
    case Liquidity => "liquidity"
    case Staking => "staking"
  }

  /** The badge on a card: the type with its first letter upper-cased. */
  function TypeLabel(kind: PositionType): (r: string)
    ensures |r| == |TypeName(kind)| && r[1..] == TypeName(kind)[1..]
  {
    Capitalize(TypeName(kind))
  }

  lemma TypeLabels()
    ensures TypeLabel(Lending) == "Lending"
    ensures TypeLabel(Liquidity) == "Liquidity"
    ensures TypeLabel(Staking) == "Staking"
  {
  }

  /** The tab bar's state cell. */
  class DeFiTabs {
    var activeTab: Tab

    /** Starts on 'all'. */
    constructor ()
      ensures activeTab == AllTab
    {
      activeTab := AllTab;
    }

    /** A click on a tab. */
    method SelectTab(tab: Tab)
      modifies this
      ensures activeTab == tab
    {
      activeTab := tab;
    }
  }
}
