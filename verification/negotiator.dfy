/**
 * The variant negotiator: every combination of one value per design
 * attribute (a Cartesian product, first attribute varying slowest), each
 * combination written as its values joined with `_`.
 */
module Negotiator {

  import opened Common
  import opened Dicts

  /** Attribute name to its candidate values, in insertion order. */
  type Options = Dict<string, seq<string>>

  /** A negotiator only remembers the options it was built with; they are never updated. */
  datatype Negotiator = Negotiator(baseOptions: Options)

  /** The three-attribute default: color, material and finish, two values each. */
  function DefaultOptions(): (d: Options)
    ensures Valid(d)
    ensures d.keys == ["color", "material", "finish"]
  {
    var d := Dict(["color", "material", "finish"],
                  map["color" := ["red", "blue"], "material" := ["steel", "plastic"], "finish" := ["matte", "gloss"]]);
    assert d.vals.Keys == set k | k in d.keys;
    d
  }

  /** Python truthiness of an optional mapping: present and non-empty. */
  predicate Truthy(o: Option<Options>)
  {
    o.Some? && o.value.keys != []
  }

  /** `Negotiator(base_options)`: a missing or empty mapping installs the default. */
  function NewNegotiator(baseOptions: Option<Options>): (n: Negotiator)
    requires baseOptions.Some? ==> Valid(baseOptions.value)
    ensures Valid(n.baseOptions)
    ensures Truthy(baseOptions) ==> n.baseOptions == baseOptions.value
    ensures !Truthy(baseOptions) ==> n.baseOptions == DefaultOptions()
  {
    if Truthy(baseOptions) then Negotiator(baseOptions.value) else Negotiator(DefaultOptions())
  }

  // ---------------------------------------------------------------------
  // itertools.product
  // ---------------------------------------------------------------------

  /** `x` in front of every combination of `ps`. */
  function Prepend(x: string, ps: seq<seq<string>>): (r: seq<seq<string>>)
    ensures |r| == |ps|
    ensures forall j :: 0 <= j < |ps| ==> r[j] == [x] + ps[j]
  {
    seq(|ps|, j requires 0 <= j < |ps| => [x] + ps[j])
  }

  /** Each value of `xs` in turn, in front of every combination of `ps`. */
  function Spread(xs: seq<string>, ps: seq<seq<string>>): seq<seq<string>>
    decreases |xs|
  {
    if xs == [] then [] else Prepend(xs[0], ps) + Spread(xs[1..], ps)
  }

  /** `list(product(*ls))`: one value from each list, the first list varying slowest. */
  function Product(ls: seq<seq<string>>): seq<seq<string>>
    decreases |ls|
  {
    if ls == [] then [[]] else Spread(ls[0], Product(ls[1..]))
  }

  /** The product of the list lengths. */
  function LengthProduct(ls: seq<seq<string>>): nat
    decreases |ls|
  {
    if ls == [] then 1 else |ls[0]| * LengthProduct(ls[1..])
  }

  lemma {:induction false} SpreadLength(xs: seq<string>, ps: seq<seq<string>>)
    ensures |Spread(xs, ps)| == |xs| * |ps|
    decreases |xs|
  {
    if xs != [] {
      SpreadLength(xs[1..], ps);
      assert |xs| * |ps| == |ps| + (|xs| - 1) * |ps|;
    }
  }

  /** The combination at position `x * |ps| + j` is value `x` followed by combination `j`. */
  lemma {:induction false} SpreadIndex(xs: seq<string>, ps: seq<seq<string>>, x: nat, j: nat)
    requires x < |xs| && j < |ps|
    ensures 0 <= x * |ps| + j < |Spread(xs, ps)|
    ensures Spread(xs, ps)[x * |ps| + j] == [xs[x]] + ps[j]
    decreases x
  {
    var m := |ps|;
    SpreadLength(xs, ps);
    SpreadLength(xs[1..], ps);
    var pre := Prepend(xs[0], ps);
    var rest := Spread(xs[1..], ps);
    assert Spread(xs, ps) == pre + rest;
    if x == 0 {
      assert x * m + j == j;
    } else {
      SpreadIndex(xs[1..], ps, x - 1, j);
      var p := (x - 1) * m + j;
      assert x * m == (x - 1) * m + m;
      assert x * m + j == m + p;
      assert (pre + rest)[m + p] == rest[p];
    }
  }

  lemma {:induction false} SpreadMembers(xs: seq<string>, ps: seq<seq<string>>, c: seq<string>)
    ensures c in Spread(xs, ps) <==> |c| >= 1 && c[0] in xs && c[1..] in ps
    decreases |xs|
  {
    if xs != [] {
      SpreadMembers(xs[1..], ps, c);
      var pre := Prepend(xs[0], ps);
      if c in pre {
        var j :| 0 <= j < |ps| && pre[j] == c;
        assert c[1..] == ps[j];
      }
      if |c| >= 1 && c[0] == xs[0] && c[1..] in ps {
        var j :| 0 <= j < |ps| && ps[j] == c[1..];
        assert pre[j] == c;
      }
      if |c| >= 1 && c[0] in xs && c[0] != xs[0] {
        assert c[0] in xs[1..];
      }
    }
  }

  /** As many combinations as the product of the list lengths. */
  lemma {:induction false} ProductLength(ls: seq<seq<string>>)
    ensures |Product(ls)| == LengthProduct(ls)
    decreases |ls|
  {
    if ls != [] {
      ProductLength(ls[1..]);
      SpreadLength(ls[0], Product(ls[1..]));
    }
  }

  /**
   * Lexicographic order: the combination at position `x * |rest| + j` takes
   * value `x` of the first list followed by combination `j` of the others.
   */
  lemma ProductIndex(ls: seq<seq<string>>, x: nat, j: nat)
    requires ls != [] && x < |ls[0]| && j < |Product(ls[1..])|
    ensures 0 <= x * |Product(ls[1..])| + j < |Product(ls)|
    ensures Product(ls)[x * |Product(ls[1..])| + j] == [ls[0][x]] + Product(ls[1..])[j]
  {
    var ps := Product(ls[1..]);
    var whole := Spread(ls[0], ps);
    assert Product(ls) == whole;
    SpreadIndex(ls[0], ps, x, j);
    var k := x * |ps| + j;
    assert 0 <= k < |whole| && whole[k] == [ls[0][x]] + ps[j];
  }

  /** A combination is exactly one value taken from each list, in list order. */
  lemma {:induction false} ProductMembers(ls: seq<seq<string>>, c: seq<string>)
    ensures c in Product(ls) <==> |c| == |ls| && forall i :: 0 <= i < |ls| ==> c[i] in ls[i]
    decreases |ls|
  {
    if ls == [] {
      assert c in [[]] <==> c == [];
    } else {
      SpreadMembers(ls[0], Product(ls[1..]), c);
      if |c| >= 1 {
        ProductMembers(ls[1..], c[1..]);
      }
      if |c| == |ls| && forall i :: 0 <= i < |ls| ==> c[i] in ls[i] {
        assert forall i :: 0 <= i < |ls| - 1 ==> c[1..][i] == c[i + 1];
      }
      if c in Product(ls) {
        forall i | 0 <= i < |ls| ensures c[i] in ls[i] {
          if i > 0 {
            assert c[i] == c[1..][i - 1];
          }
        }
      }
    }
  }

  /** No combinations at all exactly when some list is empty. */
  lemma {:induction false} ProductEmpty(ls: seq<seq<string>>)
    ensures Product(ls) == [] <==> exists i :: 0 <= i < |ls| && ls[i] == []
    decreases |ls|
  {
    ProductLength(ls);
    if ls != [] {
      ProductEmpty(ls[1..]);
      ProductLength(ls[1..]);
      if exists i :: 0 <= i < |ls| && ls[i] == [] {
        var i :| 0 <= i < |ls| && ls[i] == [];
        if i > 0 {
          assert ls[1..][i - 1] == [];
        }
      }
      if exists i :: 0 <= i < |ls| - 1 && ls[1..][i] == [] {
        var i :| 0 <= i < |ls| - 1 && ls[1..][i] == [];
        assert ls[i + 1] == [];
      }
    }
  }

  // ---------------------------------------------------------------------
  // generate_variants
  // ---------------------------------------------------------------------

  /** Each combination written as its values joined with `_`. */
  function JoinAll(combos: seq<seq<string>>): (r: seq<string>)
    ensures |r| == |combos|
    ensures forall k :: 0 <= k < |r| ==> r[k] == Join("_", combos[k])
  {
    seq(|combos|, k requires 0 <= k < |combos| => Join("_", combos[k]))
  }

  /** `options or self.base_options`. */
  function ChosenOptions(n: Negotiator, options: Option<Options>): (opts: Options)
    ensures Truthy(options) ==> opts == options.value
    ensures !Truthy(options) ==> opts == n.baseOptions
  {
    if Truthy(options) then options.value else n.baseOptions
  }

  /** `generate_variants(options)`. */
  function GenerateVariants(n: Negotiator, options: Option<Options>): (r: seq<string>)
    requires Valid(n.baseOptions)
    requires options.Some? ==> Valid(options.value)
  {
    var opts := ChosenOptions(n, options);
    if opts.keys == [] then [] else JoinAll(Product(Values(opts)))
  }

  /**
   * The variants are the joined combinations of the chosen mapping's value
   * lists in mapping order: as many as the product of their lengths, the
   * first attribute varying slowest.
   */
  lemma GenerateVariantsShape(n: Negotiator, options: Option<Options>)
    requires Valid(n.baseOptions)
    requires options.Some? ==> Valid(options.value)
    ensures var opts := ChosenOptions(n, options);
      var r := GenerateVariants(n, options);
      opts.keys != [] ==>
        && |r| == LengthProduct(Values(opts))
        && forall k :: 0 <= k < |r| ==> r[k] == Join("_", Product(Values(opts))[k])
  {
    var opts := ChosenOptions(n, options);
    if opts.keys != [] {
      ProductLength(Values(opts));
    }
  }

  /**
   * Every join of one value per attribute of the chosen mapping, the values
   * taken in attribute order, is a variant; `GenerateVariantsCombos` gives
   * the converse.
   */
  lemma GenerateVariantsMembers(n: Negotiator, options: Option<Options>, c: seq<string>)
    requires Valid(n.baseOptions)
    requires options.Some? ==> Valid(options.value)
    ensures var opts := ChosenOptions(n, options);
      opts.keys != [] ==>
        ((|c| == |opts.keys| && forall i :: 0 <= i < |c| ==> c[i] in opts.vals[opts.keys[i]])
          ==> Join("_", c) in GenerateVariants(n, options))
  {
    var opts := ChosenOptions(n, options);
    if opts.keys != [] && |c| == |opts.keys| && forall i :: 0 <= i < |c| ==> c[i] in opts.vals[opts.keys[i]] {
      var ls := Values(opts);
      ProductMembers(ls, c);
      var k :| 0 <= k < |Product(ls)| && Product(ls)[k] == c;
      assert GenerateVariants(n, options)[k] == Join("_", c);
    }
  }

  /** Every variant joins one value per attribute of the mapping, in attribute order. */
  lemma GenerateVariantsCombos(opts: Options)
    requires Valid(opts) && opts.keys != []
    ensures forall k :: 0 <= k < |Product(Values(opts))| ==>
      var d := Product(Values(opts))[k];
      |d| == |opts.keys| && forall i :: 0 <= i < |d| ==> d[i] in opts.vals[opts.keys[i]]
  {
    var ls := Values(opts);
    forall k | 0 <= k < |Product(ls)|
      ensures var d := Product(ls)[k];
        |d| == |opts.keys| && forall i :: 0 <= i < |d| ==> d[i] in opts.vals[opts.keys[i]]
    {
      ProductMembers(ls, Product(ls)[k]);
    }
  }

  /**
   * `None` and `{}` both fall back to the base options, so an empty mapping
   * does not give an empty list; the result is empty exactly when the chosen
   * mapping has no attributes or one attribute with no values.
   */
  lemma GenerateVariantsFallback(n: Negotiator, options: Option<Options>)
    requires Valid(n.baseOptions)
    requires options.Some? ==> Valid(options.value)
    ensures !Truthy(options) ==> GenerateVariants(n, options) == GenerateVariants(n, None)
    ensures var opts := ChosenOptions(n, options);
      GenerateVariants(n, options) == [] <==>
        (opts.keys == [] || exists i :: 0 <= i < |opts.keys| && opts.vals[opts.keys[i]] == [])
  {
    var opts := ChosenOptions(n, options);
    if opts.keys != [] {
      var ls := Values(opts);
      ProductEmpty(ls);
      if exists i :: 0 <= i < |opts.keys| && opts.vals[opts.keys[i]] == [] {
        var i :| 0 <= i < |opts.keys| && opts.vals[opts.keys[i]] == [];
        assert ls[i] == [];
      }
    }
  }

  /** A negotiator built with the defaults never has an empty base mapping, so `generate_variants()` is never `[]` for it. */
  lemma DefaultNeverEmpty(base: Option<Options>)
    requires base.Some? ==> Valid(base.value)
    ensures NewNegotiator(base).baseOptions.keys != []
  {
  }

  /** The product of two-element lists, spelled out. */
  lemma SpreadPair(x: string, y: string, ps: seq<seq<string>>)
    ensures Spread([x, y], ps) == Prepend(x, ps) + Prepend(y, ps)
  {
    assert [x, y][1..] == [y] && [y][1..] == [];
    assert Spread([y], ps) == Prepend(y, ps) + [];
  }

  lemma CustomProduct()
    ensures Product([["S", "L"], ["green"]]) == [["S", "green"], ["L", "green"]]
  {
    var p1 := Product([["green"]]);
    assert p1 == [["green"]] by {
      assert [["green"]][1..] == [] && ["green"][1..] == [];
      assert ["green"] + [] == ["green"];
      assert Prepend("green", [[]]) == [["green"]];
    }
    assert [["S", "L"], ["green"]][1..] == [["green"]];
    SpreadPair("S", "L", p1);
    assert ["S"] + ["green"] == ["S", "green"] && ["L"] + ["green"] == ["L", "green"];
    assert Prepend("S", p1) == [["S", "green"]] && Prepend("L", p1) == [["L", "green"]];
  }

  /** `{"size": ["S", "L"], "color": ["green"]}` gives `["S_green", "L_green"]`, whatever the base options. */
  lemma CustomOptionsExample(n: Negotiator)
    requires Valid(n.baseOptions)
    ensures Valid(Dict(["size", "color"], map["size" := ["S", "L"], "color" := ["green"]]))
    ensures GenerateVariants(n, Some(Dict(["size", "color"], map["size" := ["S", "L"], "color" := ["green"]])))
      == ["S_green", "L_green"]
  {
    var d := Dict(["size", "color"], map["size" := ["S", "L"], "color" := ["green"]]);
    assert d.vals.Keys == set k | k in d.keys;
    var ls := Values(d);
    assert ls == [["S", "L"], ["green"]];
    CustomProduct();
    assert Join("_", ["S", "green"]) == "S_green" by {
      assert ["S", "green"][..1] == ["S"];
    }
    assert Join("_", ["L", "green"]) == "L_green" by {
      assert ["L", "green"][..1] == ["L"];
    }
    var r := GenerateVariants(n, Some(d));
    assert r == JoinAll(Product(ls));
  }

  lemma FinishProduct()
    ensures Product([["matte", "gloss"]]) == [["matte"], ["gloss"]]
  {
    assert [["matte", "gloss"]][1..] == [];
    SpreadPair("matte", "gloss", [[]]);
    assert ["matte"] + [] == ["matte"] && ["gloss"] + [] == ["gloss"];
    assert Prepend("matte", [[]]) == [["matte"]] && Prepend("gloss", [[]]) == [["gloss"]];
  }

  lemma MaterialFinishProduct()
    ensures Product([["steel", "plastic"], ["matte", "gloss"]])
      == [["steel", "matte"], ["steel", "gloss"], ["plastic", "matte"], ["plastic", "gloss"]]
  {
    FinishProduct();
    assert [["steel", "plastic"], ["matte", "gloss"]][1..] == [["matte", "gloss"]];
    SpreadPair("steel", "plastic", [["matte"], ["gloss"]]);
    assert ["steel"] + ["matte"] == ["steel", "matte"] && ["steel"] + ["gloss"] == ["steel", "gloss"];
    assert ["plastic"] + ["matte"] == ["plastic", "matte"] && ["plastic"] + ["gloss"] == ["plastic", "gloss"];
    assert Prepend("steel", [["matte"], ["gloss"]]) == [["steel", "matte"], ["steel", "gloss"]];
    assert Prepend("plastic", [["matte"], ["gloss"]]) == [["plastic", "matte"], ["plastic", "gloss"]];
  }

  /** The eight default combinations, first attribute slowest. */
  const DefaultCombos: seq<seq<string>> :=
    [["red", "steel", "matte"], ["red", "steel", "gloss"], ["red", "plastic", "matte"], ["red", "plastic", "gloss"],
     ["blue", "steel", "matte"], ["blue", "steel", "gloss"], ["blue", "plastic", "matte"], ["blue", "plastic", "gloss"]]

  lemma DefaultProduct()
    ensures Product([["red", "blue"], ["steel", "plastic"], ["matte", "gloss"]]) == DefaultCombos
  {
    var rest := [["steel", "plastic"], ["matte", "gloss"]];
    var p1 := [["steel", "matte"], ["steel", "gloss"], ["plastic", "matte"], ["plastic", "gloss"]];
    MaterialFinishProduct();
    assert [["red", "blue"], ["steel", "plastic"], ["matte", "gloss"]][1..] == rest;
    SpreadPair("red", "blue", p1);
    assert ["red"] + ["steel", "matte"] == ["red", "steel", "matte"];
    assert ["red"] + ["steel", "gloss"] == ["red", "steel", "gloss"];
    assert ["red"] + ["plastic", "matte"] == ["red", "plastic", "matte"];
    assert ["red"] + ["plastic", "gloss"] == ["red", "plastic", "gloss"];
    assert ["blue"] + ["steel", "matte"] == ["blue", "steel", "matte"];
    assert ["blue"] + ["steel", "gloss"] == ["blue", "steel", "gloss"];
    assert ["blue"] + ["plastic", "matte"] == ["blue", "plastic", "matte"];
    assert ["blue"] + ["plastic", "gloss"] == ["blue", "plastic", "gloss"];
    assert Prepend("red", p1)
      == [["red", "steel", "matte"], ["red", "steel", "gloss"], ["red", "plastic", "matte"], ["red", "plastic", "gloss"]];
    assert Prepend("blue", p1)
      == [["blue", "steel", "matte"], ["blue", "steel", "gloss"], ["blue", "plastic", "matte"], ["blue", "plastic", "gloss"]];
  }

  /** The default names, two at a time; split from `DefaultCombosJoined` to keep each proof small. */
  lemma RedSteelJoins()
    ensures Join("_", ["red", "steel", "matte"]) == "red_steel_matte"
    ensures Join("_", ["red", "steel", "gloss"]) == "red_steel_gloss"
  {
    assert ["red", "steel"][..1] == ["red"];
    assert ["red", "steel", "matte"][..2] == ["red", "steel"];
    assert ["red", "steel", "gloss"][..2] == ["red", "steel"];
  }

  lemma RedPlasticJoins()
    ensures Join("_", ["red", "plastic", "matte"]) == "red_plastic_matte"
    ensures Join("_", ["red", "plastic", "gloss"]) == "red_plastic_gloss"
  {
    assert ["red", "plastic"][..1] == ["red"];
    assert ["red", "plastic", "matte"][..2] == ["red", "plastic"];
    assert ["red", "plastic", "gloss"][..2] == ["red", "plastic"];
  }

  lemma BlueSteelJoins()
    ensures Join("_", ["blue", "steel", "matte"]) == "blue_steel_matte"
    ensures Join("_", ["blue", "steel", "gloss"]) == "blue_steel_gloss"
  {
    assert ["blue", "steel"][..1] == ["blue"];
    assert ["blue", "steel", "matte"][..2] == ["blue", "steel"];
    assert ["blue", "steel", "gloss"][..2] == ["blue", "steel"];
  }

  lemma BluePlasticJoins()
    ensures Join("_", ["blue", "plastic", "matte"]) == "blue_plastic_matte"
    ensures Join("_", ["blue", "plastic", "gloss"]) == "blue_plastic_gloss"
  {
    assert ["blue", "plastic"][..1] == ["blue"];
    assert ["blue", "plastic", "matte"][..2] == ["blue", "plastic"];
    assert ["blue", "plastic", "gloss"][..2] == ["blue", "plastic"];
  }

  lemma DefaultCombosJoined()
    ensures JoinAll(DefaultCombos) == [
      "red_steel_matte", "red_steel_gloss", "red_plastic_matte", "red_plastic_gloss",
      "blue_steel_matte", "blue_steel_gloss", "blue_plastic_matte", "blue_plastic_gloss"]
  {
    RedSteelJoins();
    RedPlasticJoins();
    BlueSteelJoins();
    BluePlasticJoins();
  }

  lemma DefaultVariantsCombos()
    ensures GenerateVariants(NewNegotiator(None), None) == JoinAll(DefaultCombos)
  {
    var ls := Values(DefaultOptions());
    assert ls == [["red", "blue"], ["steel", "plastic"], ["matte", "gloss"]];
    DefaultProduct();
  }

  /** The default negotiator with no options gives the eight default combinations in lexicographic order. */
  lemma DefaultVariantsExample()
    ensures GenerateVariants(NewNegotiator(None), None) == [
      "red_steel_matte", "red_steel_gloss", "red_plastic_matte", "red_plastic_gloss",
      "blue_steel_matte", "blue_steel_gloss", "blue_plastic_matte", "blue_plastic_gloss"]
  {
    DefaultVariantsCombos();
    DefaultCombosJoined();
  }
}
