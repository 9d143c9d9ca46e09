/** Chart options: a small JSON value type, the deep merge that lays custom
    options over the themed base options, and the theme selection. */
module Charts {
  import opened Format

  /** A JSON value; objects are maps from keys to values. */
  datatype Json = JNull | JBool(b: bool) | JNum(n: real) | JStr(s: string) | JArr(items: seq<Json>) | JObj(fields: map<string, Json>)

  /** `isObject`: a truthy non-array object. `null` is falsy and arrays are
      excluded, so only `JObj` qualifies, the empty object included. */
  predicate IsObject(j: Json) {
    j.JObj?
  }

  /** Different indices have different decimal keys. */
  lemma IndexKeysDistinct(i: nat, j: nat)
    requires i != j
    ensures NatToString(i) != NatToString(j)
  {
    ParseNatToString(i);
    ParseNatToString(j);
  }

  /** The elements of an array-like value under their decimal indices. */
  function IndexMap<T>(xs: seq<T>): (m: map<string, T>)
    ensures forall i: nat :: i < |xs| ==> NatToString(i) in m && m[NatToString(i)] == xs[i]
  {
    if |xs| == 0 then map[]
    else
      var n := |xs| - 1;
      assert forall i: nat :: i < n ==> NatToString(i) != NatToString(n) by {
        forall i: nat | i < n
          ensures NatToString(i) != NatToString(n)
        {
          IndexKeysDistinct(i, n);
        }
      }
      assert forall i :: 0 <= i < n ==> xs[..n][i] == xs[i];
      IndexMap(xs[..n])[NatToString(n) := xs[n]]
  }

  /** `Object.assign({}, t)`: an object's own fields; an array's elements and a
      string's characters under their decimal indices; nothing for the
      other primitives. */
  function Assign(t: Json): (m: map<string, Json>)
    ensures IsObject(t) ==> m == t.fields
    ensures t.JArr? ==> m == IndexMap(t.items)
    ensures t.JNull? || t.JBool? || t.JNum? ==> m == map[]
  {
    match t
    case JObj(fields) => fields
    case JArr(items) => IndexMap(items)
    case JStr(s) => IndexMap(seq(|s|, i requires 0 <= i < |s| => JStr([s[i]])))
    case _ => map[]
  }

  /** `mergeDeep` as written: a copy of the target; when both sides are plain
      objects, each source key is laid over it, an object value being merged
      into the target's value of that key when the target has the key. The
      recursive call receives the target's value even when that is not an
      object, and then returns a copy of it with nothing from the source. */
  function MergeDeepAsWritten(t: Json, s: Json): (r: Json)
    ensures IsObject(r)
    ensures !(IsObject(t) && IsObject(s)) ==> r == JObj(Assign(t))
    ensures IsObject(t) && IsObject(s) ==> r.fields.Keys == t.fields.Keys + s.fields.Keys
    ensures IsObject(t) && IsObject(s) ==>
              forall k :: k in t.fields && k !in s.fields ==> r.fields[k] == t.fields[k]
    ensures IsObject(t) && IsObject(s) ==>
              forall k :: k in s.fields && (!IsObject(s.fields[k]) || k !in t.fields) ==> r.fields[k] == s.fields[k]
    ensures IsObject(t) && IsObject(s) ==>
              forall k :: k in s.fields && IsObject(s.fields[k]) && k in t.fields ==>
                r.fields[k] == MergeDeepAsWritten(t.fields[k], s.fields[k])
    decreases s
  {
    if IsObject(t) && IsObject(s) then
      JObj(map k | k in t.fields.Keys + s.fields.Keys ::
        if k !in s.fields then t.fields[k]
        else if !IsObject(s.fields[k]) || k !in t.fields then s.fields[k]
        else MergeDeepAsWritten(t.fields[k], s.fields[k]))
    else JObj(Assign(t))
  }

  /** `mergeDeep` with the evident intent: an object value of the source is
      merged into the target's value only when that value is an object too,
      and otherwise replaces it. */
  function MergeDeep(t: Json, s: Json): (r: Json)
    ensures IsObject(r)
    ensures !(IsObject(t) && IsObject(s)) ==> r == JObj(Assign(t))
    ensures IsObject(t) && IsObject(s) ==> r.fields.Keys == t.fields.Keys + s.fields.Keys
    ensures IsObject(t) && IsObject(s) ==>
              forall k :: k in t.fields && k !in s.fields ==> r.fields[k] == t.fields[k]
    ensures IsObject(t) && IsObject(s) ==>
              forall k :: k in s.fields && !(IsObject(s.fields[k]) && k in t.fields && IsObject(t.fields[k])) ==>
                r.fields[k] == s.fields[k]
    decreases s
  {
    if IsObject(t) && IsObject(s) then
      JObj(map k | k in t.fields.Keys + s.fields.Keys ::
        if k !in s.fields then t.fields[k]
        else if IsObject(s.fields[k]) && k in t.fields && IsObject(t.fields[k]) then MergeDeep(t.fields[k], s.fields[k])
        else s.fields[k])
    else JObj(Assign(t))
  }

  /** Every value the source spells out is in `r`: its non-object values as
      given, its objects as objects covering them in turn. */
  predicate Covers(r: Json, s: Json)
    decreases s
  {
    IsObject(s) ==>
      IsObject(r) && forall k :: k in s.fields ==>
        k in r.fields && (if IsObject(s.fields[k]) then Covers(r.fields[k], s.fields[k]) else r.fields[k] == s.fields[k])
  }

  lemma {:induction false} CoversSelf(s: Json)
    ensures Covers(s, s)
    decreases s
  {
    if IsObject(s) {
      forall k | k in s.fields && IsObject(s.fields[k])
        ensures Covers(s.fields[k], s.fields[k])
      {
        CoversSelf(s.fields[k]);
      }
    }
  }

  /** The merge keeps everything the source says: custom options always take
      effect. */
  lemma {:induction false} MergeDeepCovers(t: Json, s: Json)
    requires IsObject(t)
    ensures Covers(MergeDeep(t, s), s)
    decreases s
  {
    if IsObject(s) {
      var r := MergeDeep(t, s);
      forall k | k in s.fields && IsObject(s.fields[k])
        ensures Covers(r.fields[k], s.fields[k])
      {
        if k in t.fields && IsObject(t.fields[k]) {
          MergeDeepCovers(t.fields[k], s.fields[k]);
        } else {
          CoversSelf(s.fields[k]);
        }
      }
    }
  }

  /** Merging an empty source gives the target back; merging into an empty
      target gives the source back. Both hold of the merge as written and of
      the corrected one. */
  lemma MergeDeepUnits(t: Json, s: Json)
    requires IsObject(t) && IsObject(s)
    ensures MergeDeepAsWritten(t, JObj(map[])) == t && MergeDeepAsWritten(JObj(map[]), s) == s
    ensures MergeDeep(t, JObj(map[])) == t && MergeDeep(JObj(map[]), s) == s
  {
  }

  /** No object of the source lands on a non-object value of the target, at
      any depth: the inputs on which the merge as written does what is
      intended. */
  predicate Compatible(t: Json, s: Json)
    decreases s
  {
    IsObject(t) && IsObject(s) ==>
      forall k :: k in s.fields && IsObject(s.fields[k]) && k in t.fields ==>
        IsObject(t.fields[k]) && Compatible(t.fields[k], s.fields[k])
  }

  /** On compatible inputs the merge as written is the intended merge. */
  lemma {:induction false} AsWrittenAgrees(t: Json, s: Json)
    requires Compatible(t, s)
    ensures MergeDeepAsWritten(t, s) == MergeDeep(t, s)
    decreases s
  {
    if IsObject(t) && IsObject(s) {
      var a, b := MergeDeepAsWritten(t, s), MergeDeep(t, s);
      forall k | k in s.fields && IsObject(s.fields[k]) && k in t.fields
        ensures a.fields[k] == b.fields[k]
      {
        AsWrittenAgrees(t.fields[k], s.fields[k]);
      }
      assert a.fields == b.fields;
    }
  }

  /** The merge as written keeps everything a compatible source says. */
  lemma AsWrittenCovers(t: Json, s: Json)
    requires IsObject(t) && Compatible(t, s)
    ensures Covers(MergeDeepAsWritten(t, s), s)
  {
    AsWrittenAgrees(t, s);
    MergeDeepCovers(t, s);
  }

  /** A target `{a: 1}` under a source `{a: {b: 1}}`: as written the result
      is `{a: {}}` and the source's `b` is lost; the intended merge gives
      `{a: {b: 1}}`. */
  lemma MergeDeepDropsSource()
    ensures var t := JObj(map["a" := JNum(1.0)]);
            var s := JObj(map["a" := JObj(map["b" := JNum(1.0)])]);
            && MergeDeepAsWritten(t, s) == JObj(map["a" := JObj(map[])])
            && !Covers(MergeDeepAsWritten(t, s), s)
            && MergeDeep(t, s) == s
  {
    var t := JObj(map["a" := JNum(1.0)]);
    var s := JObj(map["a" := JObj(map["b" := JNum(1.0)])]);
    var r := MergeDeepAsWritten(t, s);
    assert r.fields["a"] == MergeDeepAsWritten(JNum(1.0), JObj(map["b" := JNum(1.0)]));
    assert r.fields == map["a" := JObj(map[])];
    assert "b" !in r.fields["a"].fields;
    assert MergeDeep(t, s).fields == s.fields;
  }

  // ---------------------------------------------------------------- theme

  const LightColors: seq<Json> := [JStr("#3b82f6"), JStr("#10b981"), JStr("#f59e0b"), JStr("#ef4444"), JStr("#8b5cf6")]
  const DarkColors: seq<Json> := [JStr("#60a5fa"), JStr("#34d399"), JStr("#fbbf24"), JStr("#f87171"), JStr("#a78bfa")]

  function Color(dark: bool, darkValue: string, lightValue: string): Json {
    JObj(map["color" := JStr(if dark then darkValue else lightValue)])
  }

  /** The axis styling shared by both axes. */
  function Axis(dark: bool): Json {
    JObj(map[
      "textStyle" := Color(dark, "#94a3b8", "#64748b"),
      "titleTextStyle" := Color(dark, "#cbd5e1", "#475569"),
      "gridlines" := Color(dark, "#334155", "#e2e8f0")])
  }

  /** The base options of `getChartOptions` for the dark or light theme. */
  function BaseOptions(dark: bool): (o: Json)
    ensures IsObject(o) && "colors" in o.fields
    ensures o.fields["colors"] == JArr(if dark then DarkColors else LightColors)
  {
    JObj(map[
      "backgroundColor" := JStr("transparent"),
      "fontName" := JStr("Inter"),
      "fontSize" := JNum(12.0),
      "titleTextStyle" := JObj(map[
        "color" := JStr(if dark then "#f1f5f9" else "#0f172a"),
        "fontSize" := JNum(16.0),
        "bold" := JBool(false)]),
      "legendTextStyle" := Color(dark, "#cbd5e1", "#475569"),
      "hAxis" := Axis(dark),
      "vAxis" := Axis(dark),
      "colors" := JArr(if dark then DarkColors else LightColors),
      "chartArea" := JObj(map[
        "left" := JNum(60.0),
        "top" := JNum(40.0),
        "width" := JStr("80%"),
        "height" := JStr("70%")])])
  }

  lemma CoversWhenCompatible(t: Json, s: Json)
    requires IsObject(t)
    ensures Compatible(t, s) ==> MergeDeepAsWritten(t, s) == MergeDeep(t, s) && Covers(MergeDeepAsWritten(t, s), s)
  {
    if Compatible(t, s) {
      AsWrittenAgrees(t, s);
      AsWrittenCovers(t, s);
    }
  }

  /** `getChartOptions`: the base options of the theme with the custom
      options merged over them by `mergeDeep` as written. */
  function GetChartOptions(theme: string, custom: Json): (r: Json)
    ensures IsObject(r)
    ensures forall k :: k in BaseOptions(theme == "dark").fields && (!IsObject(custom) || k !in custom.fields) ==>
              k in r.fields && r.fields[k] == BaseOptions(theme == "dark").fields[k]
    ensures Compatible(BaseOptions(theme == "dark"), custom) ==> Covers(r, custom)
    ensures !IsObject(custom) || "colors" !in custom.fields ==>
              "colors" in r.fields && r.fields["colors"] == JArr(if theme == "dark" then DarkColors else LightColors)
  {
    var base := BaseOptions(theme == "dark");
    CoversWhenCompatible(base, custom);
    MergeDeepAsWritten(base, custom)
  }

  /** The options with the corrected merge: every custom value takes effect. */
  function GetChartOptionsIntended(theme: string, custom: Json): (r: Json)
    ensures IsObject(r) && Covers(r, custom)
    ensures Compatible(BaseOptions(theme == "dark"), custom) ==> r == GetChartOptions(theme, custom)
  {
    var base := BaseOptions(theme == "dark");
    MergeDeepCovers(base, custom);
    CoversWhenCompatible(base, custom);
    MergeDeep(base, custom)
  }

  /** A custom `fontSize: {a: 1}` lands on the base's number 12: the options
      as written hold `fontSize: {}` and lose the custom value. */
  lemma FontSizeObjectLost(theme: string)
    ensures var custom := JObj(map["fontSize" := JObj(map["a" := JNum(1.0)])]);
            && GetChartOptions(theme, custom).fields["fontSize"] == JObj(map[])
            && !Covers(GetChartOptions(theme, custom), custom)
            && Covers(GetChartOptionsIntended(theme, custom), custom)
  {
    var custom := JObj(map["fontSize" := JObj(map["a" := JNum(1.0)])]);
    var base := BaseOptions(theme == "dark");
    var r := GetChartOptions(theme, custom);
    assert base.fields["fontSize"] == JNum(12.0);
    assert r.fields["fontSize"] == MergeDeepAsWritten(JNum(12.0), JObj(map["a" := JNum(1.0)]));
    assert r.fields["fontSize"].fields == map[];
    assert "fontSize" in custom.fields && IsObject(custom.fields["fontSize"]) && "a" in custom.fields["fontSize"].fields;
    assert !Covers(r.fields["fontSize"], custom.fields["fontSize"]);
  }

  /** Without custom colours, the palette is the dark one exactly when the
      theme is 'dark'. */
  lemma ThemePalette(theme: string, custom: Json)
    requires !IsObject(custom) || "colors" !in custom.fields
    ensures GetChartOptions(theme, custom).fields["colors"] == JArr(DarkColors) <==> theme == "dark"
  {
    if theme != "dark" {
      assert LightColors[0] != DarkColors[0];
    }
  }
}
