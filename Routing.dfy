/**
 * Sub-mesh routing of the model-load callback (main.js): each mesh of the loaded model is
 * classified by its lower-cased name into a material and a render order, by substring
 * tests in a fixed priority order; a name matching none of them is dropped.
 */
module Routing {
  import opened Wrappers

  /** The materials a routed mesh can carry, as opaque tags. */
  datatype Material = HepaticArtery | PortalVein | BileDuct | Healthy | Fibrosis

  /** What a routed mesh gets: its material and its render order. */
  datatype Route = Route(material: Material, renderOrder: nat)

  // ---------------------------------------------------------------- strings

  /** Lower-casing of one character (ASCII letters only): no capital remains, a capital becomes the small letter at its alphabet position, and anything else is kept. */
  function LowerChar(ch: char): (r: char)
    ensures !('A' <= r <= 'Z')
    ensures 'A' <= ch <= 'Z' ==> 'a' <= r <= 'z' && r as int - 'a' as int == ch as int - 'A' as int
    ensures !('A' <= ch <= 'Z') ==> r == ch
  {
    if 'A' <= ch <= 'Z' then (ch as int + 32) as char else ch
  }

  /** `String.prototype.toLowerCase`, restricted to ASCII. */
  function ToLower(s: string): (r: string)
    ensures |r| == |s|
    ensures forall i :: 0 <= i < |s| ==> r[i] == LowerChar(s[i])
  {
    if s == [] then [] else [LowerChar(s[0])] + ToLower(s[1..])
  }

  /** Lower-casing twice is lower-casing once. */
  lemma ToLowerIdempotent(s: string)
    ensures ToLower(ToLower(s)) == ToLower(s)
  {
  }

  /** `p` is a prefix of `s`. */
  predicate IsPrefix(p: string, s: string)
  {
    |p| <= |s| && s[..|p|] == p
  }

  /** `String.prototype.includes`: `p` occurs in `s` at some offset, tried left to right. */
  predicate Includes(s: string, p: string)
    decreases |s|
  {
    IsPrefix(p, s) || (|s| > 0 && Includes(s[1..], p))
  }

  /** `p` occurs in `s` at offset i. */
  predicate OccursAt(s: string, p: string, i: int)
  {
    0 <= i && i + |p| <= |s| && s[i..i + |p|] == p
  }

  /** The scan agrees with the definition of a substring: `p` occurs in `s` at some offset. */
  lemma {:induction false} IncludesIff(s: string, p: string)
    ensures Includes(s, p) <==> exists i :: OccursAt(s, p, i)
    decreases |s|
  {
    if IsPrefix(p, s) {
      assert OccursAt(s, p, 0);
    } else if |s| == 0 {
      assert !exists i :: OccursAt(s, p, i);
    } else {
      IncludesIff(s[1..], p);
      if Includes(s[1..], p) {
        var i :| OccursAt(s[1..], p, i);
        assert s[1..][i..i + |p|] == s[i + 1..i + 1 + |p|];
        assert OccursAt(s, p, i + 1);
      }
      assert !OccursAt(s, p, 0);
      if exists i :: OccursAt(s, p, i) {
        var i :| OccursAt(s, p, i);
        assert s[1..][i - 1..i - 1 + |p|] == s[i..i + |p|];
        assert OccursAt(s[1..], p, i - 1);
      }
    }
  }

  /** A string with `p` at some offset includes `p`. */
  lemma IncludesAt(s: string, p: string, i: nat)
    requires OccursAt(s, p, i)
    ensures Includes(s, p)
  {
    IncludesIff(s, p);
  }

  // ---------------------------------------------------------------- classifier

  /** The routing of a lower-cased name: the first branch whose patterns occur in it wins. */
  function Classify(name: string): Option<Route>
  {
    if Includes(name, "ha") || Includes(name, "artery") then Some(Route(HepaticArtery, 1))
    else if Includes(name, "pv") || Includes(name, "portal") then Some(Route(PortalVein, 2))
    else if Includes(name, "bd") || Includes(name, "bile") then Some(Route(BileDuct, 3))
    else if Includes(name, "liver") then Some(Route(Healthy, 4))
    else None
  }

  /** The same routing as data: each rule is a list of patterns, tried in order. */
  datatype Rule = Rule(patterns: seq<string>, route: Route)

  const Rules: seq<Rule> := [
    Rule(["ha", "artery"], Route(HepaticArtery, 1)),
    Rule(["pv", "portal"], Route(PortalVein, 2)),
    Rule(["bd", "bile"], Route(BileDuct, 3)),
    Rule(["liver"], Route(Healthy, 4))
  ]

  predicate AnyIncluded(name: string, patterns: seq<string>)
  {
    exists k :: 0 <= k < |patterns| && Includes(name, patterns[k])
  }

  /** The route of the first rule with a pattern in `name`, if any. */
  function FirstMatch(name: string, rules: seq<Rule>): (r: Option<Route>)
    ensures r.None? <==> forall k :: 0 <= k < |rules| ==> !AnyIncluded(name, rules[k].patterns)
    ensures r.Some? ==> exists k :: (0 <= k < |rules| && AnyIncluded(name, rules[k].patterns) &&
      r.value == rules[k].route && forall j :: 0 <= j < k ==> !AnyIncluded(name, rules[j].patterns))
  {
    if rules == [] then None
    else if AnyIncluded(name, rules[0].patterns) then Some(rules[0].route)
    else
      var r := FirstMatch(name, rules[1..]);
      assert forall k :: 1 <= k < |rules| ==> rules[k] == rules[1..][k - 1];
      r
  }

  /** The chain of ifs is the first-match rule over the table. */
  lemma ClassifyIsFirstMatch(name: string)
    ensures Classify(name) == FirstMatch(name, Rules)
  {
    var r0, r1, r2, r3 := Rules[0], Rules[1], Rules[2], Rules[3];
    assert AnyIncluded(name, r0.patterns) <==> Includes(name, "ha") || Includes(name, "artery") by {
      assert r0.patterns[0] == "ha" && r0.patterns[1] == "artery";
    }
    assert AnyIncluded(name, r1.patterns) <==> Includes(name, "pv") || Includes(name, "portal") by {
      assert r1.patterns[0] == "pv" && r1.patterns[1] == "portal";
    }
    assert AnyIncluded(name, r2.patterns) <==> Includes(name, "bd") || Includes(name, "bile") by {
      assert r2.patterns[0] == "bd" && r2.patterns[1] == "bile";
    }
    assert AnyIncluded(name, r3.patterns) <==> Includes(name, "liver") by {
      assert r3.patterns[0] == "liver";
    }
    var t1, t2, t3 := [r1, r2, r3], [r2, r3], [r3];
    assert Rules[1..] == t1 && t1[1..] == t2 && t2[1..] == t3 && t3[1..] == [];
    assert FirstMatch(name, t3) == if AnyIncluded(name, r3.patterns) then Some(r3.route) else None;
    assert FirstMatch(name, t2) == if AnyIncluded(name, r2.patterns) then Some(r2.route) else FirstMatch(name, t3);
    assert FirstMatch(name, t1) == if AnyIncluded(name, r1.patterns) then Some(r1.route) else FirstMatch(name, t2);
  }

  /** A routed mesh has render order 1 to 4, and its material is fixed by that order; only order 4 is liver tissue, and a load never routes to the fibrotic material. */
  lemma ClassifyRoutes(name: string)
    ensures Classify(name).Some? ==> 1 <= Classify(name).value.renderOrder <= 4
    ensures Classify(name).Some? ==>
      (Classify(name).value.material == Healthy <==> Classify(name).value.renderOrder == 4)
    ensures Classify(name).Some? ==> Classify(name).value.material != Fibrosis
  {
  }

  /** A name is dropped exactly when no pattern of any rule occurs in it. */
  lemma ClassifyDrops(name: string)
    ensures Classify(name).None? <==>
      forall k, j :: 0 <= k < |Rules| && 0 <= j < |Rules[k].patterns| ==> !Includes(name, Rules[k].patterns[j])
  {
    ClassifyIsFirstMatch(name);
  }

  /** A name is routed as liver tissue exactly when it contains "liver" and no pattern of an earlier rule. */
  lemma ClassifyLiver(name: string)
    ensures Classify(name) == Some(Route(Healthy, 4)) <==>
      Includes(name, "liver") &&
      forall k, j :: 0 <= k < 3 && 0 <= j < |Rules[k].patterns| ==> !Includes(name, Rules[k].patterns[j])
  {
    assert Rules[0].patterns == ["ha", "artery"] && Rules[1].patterns == ["pv", "portal"];
    assert Rules[2].patterns == ["bd", "bile"];
    if Classify(name) == Some(Route(Healthy, 4)) {
      forall k, j | 0 <= k < 3 && 0 <= j < |Rules[k].patterns|
        ensures !Includes(name, Rules[k].patterns[j])
      {
        assert k == 0 || k == 1 || k == 2;
        assert j == 0 || j == 1;
      }
    } else if Includes(name, "liver") {
      assert exists k, j :: 0 <= k < 3 && 0 <= j < |Rules[k].patterns| && Includes(name, Rules[k].patterns[j]) by {
        if Includes(name, "ha") { assert Includes(name, Rules[0].patterns[0]); }
        else if Includes(name, "artery") { assert Includes(name, Rules[0].patterns[1]); }
        else if Includes(name, "pv") { assert Includes(name, Rules[1].patterns[0]); }
        else if Includes(name, "portal") { assert Includes(name, Rules[1].patterns[1]); }
        else if Includes(name, "bd") { assert Includes(name, Rules[2].patterns[0]); }
        else { assert Includes(name, Rules[2].patterns[1]); }
      }
    }
  }

  /** Priority: "ha" anywhere in a name beats "liver"; so "liver_shape" is routed as an artery. */
  lemma ClassifyPriority()
    ensures Classify("liver_shape") == Some(Route(HepaticArtery, 1))
  {
    assert "liver_shape"[7..9] == "ha";
    IncludesAt("liver_shape", "ha", 7);
  }

  /** A string lacking some character of `p` does not include `p`. */
  lemma MissingChar(s: string, p: string, j: nat)
    requires j < |p| && forall i :: 0 <= i < |s| ==> s[i] != p[j]
    ensures !Includes(s, p)
  {
    forall i | 0 <= i && i + |p| <= |s|
      ensures !OccursAt(s, p, i)
    {
      assert s[i..i + |p|][j] == s[i + j];
    }
    IncludesIff(s, p);
  }

  /** Typical mesh names of a liver model route to orders 1 to 4 (four lemmas, one per branch). */
  lemma ClassifyArteryName()
    ensures Classify("ha_right") == Some(Route(HepaticArtery, 1))
  {
    IncludesAt("ha_right", "ha", 0);
  }

  lemma ClassifyPortalName()
    ensures Classify("pv_main") == Some(Route(PortalVein, 2))
  {
    MissingChar("pv_main", "ha", 0);
    MissingChar("pv_main", "artery", 1);
    IncludesAt("pv_main", "pv", 0);
  }

  lemma ClassifyBileName()
    ensures Classify("bd_common") == Some(Route(BileDuct, 3))
  {
    BileNameSkipsArtery();
    BileNameSkipsPortal();
    IncludesAt("bd_common", "bd", 0);
  }

  lemma BileNameSkipsArtery()
    ensures !Includes("bd_common", "ha") && !Includes("bd_common", "artery")
  {
    MissingChar("bd_common", "ha", 0);
    MissingChar("bd_common", "artery", 0);
  }

  lemma BileNameSkipsPortal()
    ensures !Includes("bd_common", "pv") && !Includes("bd_common", "portal")
  {
    MissingChar("bd_common", "pv", 0);
    MissingChar("bd_common", "portal", 0);
  }

  lemma ClassifyLiverName()
    ensures Classify("liver") == Some(Route(Healthy, 4))
  {
    MissingChar("liver", "ha", 0);
    MissingChar("liver", "artery", 0);
    MissingChar("liver", "pv", 0);
    MissingChar("liver", "portal", 0);
    MissingChar("liver", "bd", 0);
    MissingChar("liver", "bile", 0);
    IncludesAt("liver", "liver", 0);
  }
}
