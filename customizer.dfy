/** The colour-selection step of the product customizer: two selections of
    colour names, one per yarn class, each bounded by the product's quota,
    and the commit that hands a complete selection to the cart.

    The selections are state of the customizer component, which stays
    mounted for the whole session; the product is a parameter of every
    handler, exactly as the component receives it from the page. */
module Customizing {
  import opened Prelude
  import opened Catalog

  /** The colours chosen for one product, as handed to the cart. */
  datatype Customization = Customization(normalYarnColors: seq<string>, doubleStrandColors: seq<string>)

  /** `selection.filter(c => c !== color)`: every occurrence of `color` removed. */
  function Without(selection: seq<string>, color: string): (r: seq<string>)
    ensures color !in r
    ensures forall x :: x in r <==> x in selection && x != color
    ensures IsSubsequence(r, selection)
  {
    Filter(selection, c => c != color)
  }

  /** One click on a colour swatch of a yarn class whose quota is `quota`:
      a selected colour is dropped, an unselected one is appended while
      there is room, and otherwise nothing happens. */
  function Toggle(selection: seq<string>, color: string, quota: int): (r: seq<string>)
    ensures color in r <==> color !in selection && |selection| < quota
    ensures forall x :: x != color ==> (x in r <==> x in selection)
  {
    if color in selection then Without(selection, color)
    else if |selection| < quota then selection + [color]
    else selection
  }

  /** A sequence of clicks on one yarn class, first to last. */
  function Clicks(selection: seq<string>, colors: seq<string>, quota: int): (r: seq<string>)
    decreases |colors|
  {
    if colors == [] then selection else Clicks(Toggle(selection, colors[0], quota), colors[1..], quota)
  }

  /** A selection behaves as a set bounded by the quota. */
  predicate WithinQuota(selection: seq<string>, quota: int)
  {
    NoDup(selection) && |selection| <= quota
  }

  /** Every selected colour is one the product offers. */
  predicate Offered(selection: seq<string>, colors: seq<string>)
  {
    forall c :: c in selection ==> c in colors
  }

  /** The state a selection for product `p` should be in: bounded, without
      repetition, and drawn from the colours `p` offers. */
  predicate Consistent(p: Product, normal: seq<string>, doubleStrand: seq<string>)
  {
    && WithinQuota(normal, p.yarnRequirements.normal)
    && WithinQuota(doubleStrand, p.yarnRequirements.doubleStrand)
    && Offered(normal, p.availableColors.normal)
    && Offered(doubleStrand, p.availableColors.doubleStrand)
  }

  /** `isComplete`: both selections have exactly their quota of colours.
      Once complete, a click on an unselected colour of either class changes
      nothing; while a bounded selection is incomplete, one class still takes
      any new colour. */
  function IsComplete(p: Product, normal: seq<string>, doubleStrand: seq<string>): (r: bool)
    ensures r ==> forall c :: c !in normal ==> Toggle(normal, c, p.yarnRequirements.normal) == normal
    ensures r ==> forall c :: c !in doubleStrand ==> Toggle(doubleStrand, c, p.yarnRequirements.doubleStrand) == doubleStrand
    ensures !r && WithinQuota(normal, p.yarnRequirements.normal) && WithinQuota(doubleStrand, p.yarnRequirements.doubleStrand) ==>
      || (forall c :: c !in normal ==> Toggle(normal, c, p.yarnRequirements.normal) == normal + [c])
      || (forall c :: c !in doubleStrand ==> Toggle(doubleStrand, c, p.yarnRequirements.doubleStrand) == doubleStrand + [c])
  {
    |normal| == p.yarnRequirements.normal && |doubleStrand| == p.yarnRequirements.doubleStrand
  }

  /** What the "add to cart" button of the customizer emits: the current
      selections when they are complete, nothing otherwise. */
  function Commit(p: Product, normal: seq<string>, doubleStrand: seq<string>): (r: Option<Customization>)
    ensures r.Some? <==> IsComplete(p, normal, doubleStrand)
    ensures r.Some? ==> r.value.normalYarnColors == normal && r.value.doubleStrandColors == doubleStrand
  {
    if IsComplete(p, normal, doubleStrand) then Some(Customization(normal, doubleStrand)) else None
  }

  /** Removing a colour that occurs once shortens the selection by one. */
  lemma {:induction false} WithoutSelectedShrinksByOne(selection: seq<string>, color: string)
    requires NoDup(selection) && color in selection
    ensures |Without(selection, color)| == |selection| - 1
    decreases |selection|
  {
    var rest := selection[1..];
    assert forall x :: x in rest ==> x in selection;
    assert NoDup(rest);
    if selection[0] == color {
      assert color !in rest;
      assert Without(selection, color) == Without(rest, color);
      assert Without(rest, color) == rest;
    } else {
      WithoutSelectedShrinksByOne(rest, color);
      assert Without(selection, color) == [selection[0]] + Without(rest, color);
    }
  }

  /** Clicking a selected colour removes every occurrence of it, whatever the
      quota, keeps the order of the others, and in a selection without
      repetition frees exactly one place. */
  lemma ToggleSelectedRemoves(selection: seq<string>, color: string, quota: int)
    requires color in selection
    ensures Toggle(selection, color, quota) == Without(selection, color)
    ensures color !in Toggle(selection, color, quota)
    ensures IsSubsequence(Toggle(selection, color, quota), selection)
    ensures NoDup(selection) ==> |Toggle(selection, color, quota)| == |selection| - 1
  {
    if NoDup(selection) {
      WithoutSelectedShrinksByOne(selection, color);
    }
  }

  /** Clicking an unselected colour appends it below the quota and leaves
      the selection as it is at capacity. */
  lemma ToggleAbsent(selection: seq<string>, color: string, quota: int)
    requires color !in selection
    ensures |selection| < quota ==> Toggle(selection, color, quota) == selection + [color]
    ensures |selection| >= quota ==> Toggle(selection, color, quota) == selection
  {
  }

  /** A click keeps a selection bounded and free of repetition. */
  lemma ToggleKeepsWithinQuota(selection: seq<string>, color: string, quota: int)
    requires WithinQuota(selection, quota)
    ensures WithinQuota(Toggle(selection, color, quota), quota)
  {
    if color !in selection && |selection| < quota {
      var r := selection + [color];
      forall i, j | 0 <= i < j < |r| ensures r[i] != r[j] {
        if j == |selection| {
          assert r[i] in selection;
        }
      }
    }
  }

  /** A click on an offered colour keeps the selection within what is offered. */
  lemma ToggleKeepsOffered(selection: seq<string>, color: string, quota: int, colors: seq<string>)
    requires Offered(selection, colors) && color in colors
    ensures Offered(Toggle(selection, color, quota), colors)
  {
  }

  /** Clicking an unselected colour twice while there is room gives back
      the selection one started with. */
  lemma ToggleTwiceRestores(selection: seq<string>, color: string, quota: int)
    requires color !in selection && |selection| < quota
    ensures Toggle(Toggle(selection, color, quota), color, quota) == selection
  {
    var keep := (c: string) => c != color;
    FilterAppend(selection, color, keep);
    assert Filter(selection, keep) == selection;
  }

  /** For a fixed product, any run of clicks on offered colours keeps a
      bounded, repetition-free, offered selection so. Starting from the
      empty selection this is the invariant of the customizer. */
  lemma {:induction false} ClicksKeepSelectionValid(selection: seq<string>, colors: seq<string>, quota: int, offered: seq<string>)
    requires WithinQuota(selection, quota) && Offered(selection, offered)
    requires forall i :: 0 <= i < |colors| ==> colors[i] in offered
    ensures WithinQuota(Clicks(selection, colors, quota), quota)
    ensures Offered(Clicks(selection, colors, quota), offered)
    decreases |colors|
  {
    if colors != [] {
      ToggleKeepsWithinQuota(selection, colors[0], quota);
      ToggleKeepsOffered(selection, colors[0], quota, offered);
      ClicksKeepSelectionValid(Toggle(selection, colors[0], quota), colors[1..], quota, offered);
    }
  }

  /** Clicking, one after the other, colours not yet chosen appends them
      in click order, as long as they fit in the quota. */
  lemma {:induction false} ClicksOfNewColorsAppend(selection: seq<string>, colors: seq<string>, quota: int)
    requires NoDup(selection + colors) && |selection + colors| <= quota
    ensures Clicks(selection, colors, quota) == selection + colors
    decreases |colors|
  {
    if colors != [] {
      var s := selection + colors;
      assert colors[0] == s[|selection|];
      assert colors[0] !in selection by {
        forall i | 0 <= i < |selection| ensures selection[i] != colors[0] {
          assert selection[i] == s[i];
        }
      }
      var next := selection + [colors[0]];
      assert next + colors[1..] == s;
      ClicksOfNewColorsAppend(next, colors[1..], quota);
    }
  }

  /** With no double-strand quota, an empty double-strand selection suffices:
      completeness then depends on the normal selection alone. */
  lemma CompleteWithoutDoubleStrand(p: Product, normal: seq<string>)
    requires p.yarnRequirements.doubleStrand == 0
    ensures IsComplete(p, normal, []) <==> |normal| == p.yarnRequirements.normal
  {
  }

  /** What a commit emits fits the product: each colour list has exactly its
      quota of colours, and a consistent selection gives distinct, offered
      colours. */
  lemma CommittedCustomizationFitsProduct(p: Product, normal: seq<string>, doubleStrand: seq<string>)
    requires Commit(p, normal, doubleStrand).Some?
    ensures var c := Commit(p, normal, doubleStrand).value;
      |c.normalYarnColors| == p.yarnRequirements.normal && |c.doubleStrandColors| == p.yarnRequirements.doubleStrand
    ensures var c := Commit(p, normal, doubleStrand).value;
      Consistent(p, normal, doubleStrand) ==>
        && NoDup(c.normalYarnColors) && Offered(c.normalYarnColors, p.availableColors.normal)
        && NoDup(c.doubleStrandColors) && Offered(c.doubleStrandColors, p.availableColors.doubleStrand)
  {
  }

  /** In one yarn class offering enough distinct colours, clicking the first
      `quota` offered colours from the empty selection selects exactly them. */
  lemma FirstOfferedColorsFillQuota(colors: seq<string>, quota: int)
    requires NoDup(colors) && 0 <= quota <= |colors|
    ensures var s := Clicks([], colors[..quota], quota);
      |s| == quota && WithinQuota(s, quota) && Offered(s, colors)
  {
    var prefix := colors[..quota];
    assert NoDup([] + prefix) by {
      assert [] + prefix == prefix;
      forall i, j | 0 <= i < j < |prefix| ensures prefix[i] != prefix[j] {
        assert prefix[i] == colors[i] && prefix[j] == colors[j];
      }
    }
    ClicksOfNewColorsAppend([], prefix, quota);
    assert Clicks([], prefix, quota) == prefix;
    assert forall c :: c in prefix ==> c in colors;
  }

  /** A product that offers enough distinct colours in each class can be
      completed from empty selections: clicking its first offered colours,
      as many as each quota asks, yields a complete, consistent selection. */
  lemma CompleteSelectionReachable(p: Product)
    requires QuotasReachable(p)
    requires NoDup(p.availableColors.normal) && NoDup(p.availableColors.doubleStrand)
    ensures var normal := Clicks([], p.availableColors.normal[..p.yarnRequirements.normal], p.yarnRequirements.normal);
      var doubleStrand := Clicks([], p.availableColors.doubleStrand[..p.yarnRequirements.doubleStrand], p.yarnRequirements.doubleStrand);
      IsComplete(p, normal, doubleStrand) && Consistent(p, normal, doubleStrand)
  {
    FirstOfferedColorsFillQuota(p.availableColors.normal, p.yarnRequirements.normal);
    FirstOfferedColorsFillQuota(p.availableColors.doubleStrand, p.yarnRequirements.doubleStrand);
  }

  /** The customizer's two selection states (`selectedNormalColors`,
      `selectedDoubleStrandColors`). Each handler is given the product the
      customizer currently shows. */
  class Customizer {
    var normal: seq<string>
    var doubleStrand: seq<string>

    /** Both selections start empty. */
    constructor ()
      ensures normal == [] && doubleStrand == []
    {
      normal, doubleStrand := [], [];
    }

    /** `handleNormalColorSelect`. */
    method SelectNormalColor(product: Product, color: string)
      modifies this`normal
      ensures normal == Toggle(old(normal), color, product.yarnRequirements.normal)
      ensures old(WithinQuota(normal, product.yarnRequirements.normal)) ==> WithinQuota(normal, product.yarnRequirements.normal)
    {
      if WithinQuota(normal, product.yarnRequirements.normal) {
        ToggleKeepsWithinQuota(normal, color, product.yarnRequirements.normal);
      }
      if color in normal {
        normal := Without(normal, color);
      } else if |normal| < product.yarnRequirements.normal {
        normal := normal + [color];
      }
    }

    /** `handleDoubleStrandColorSelect`. */
    method SelectDoubleStrandColor(product: Product, color: string)
      modifies this`doubleStrand
      ensures doubleStrand == Toggle(old(doubleStrand), color, product.yarnRequirements.doubleStrand)
      ensures old(WithinQuota(doubleStrand, product.yarnRequirements.doubleStrand)) ==> WithinQuota(doubleStrand, product.yarnRequirements.doubleStrand)
    {
      if WithinQuota(doubleStrand, product.yarnRequirements.doubleStrand) {
        ToggleKeepsWithinQuota(doubleStrand, color, product.yarnRequirements.doubleStrand);
      }
      if color in doubleStrand {
        doubleStrand := Without(doubleStrand, color);
      } else if |doubleStrand| < product.yarnRequirements.doubleStrand {
        doubleStrand := doubleStrand + [color];
      }
    }

    /** The customizer's `handleAddToCart`: when both selections are complete,
        emit them and reset both to empty; otherwise emit nothing and change
        nothing. */
    method AddToCart(product: Product) returns (emitted: Option<Customization>)
      modifies this
      ensures emitted == Commit(product, old(normal), old(doubleStrand))
      ensures emitted.Some? ==> normal == [] && doubleStrand == []
      ensures emitted.None? ==> normal == old(normal) && doubleStrand == old(doubleStrand)
    {
      if |normal| == product.yarnRequirements.normal && |doubleStrand| == product.yarnRequirements.doubleStrand {
        emitted := Some(Customization(normal, doubleStrand));
        normal, doubleStrand := [], [];
      } else {
        emitted := None;
      }
    }

    /** Empties both selections. The source never does this when another
        product is shown; the corrected product switch uses it. */
    method Clear()
      modifies this
      ensures normal == [] && doubleStrand == []
    {
      normal, doubleStrand := [], [];
    }
  }
}
