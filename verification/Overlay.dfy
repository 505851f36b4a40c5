/** Deep merging of JSON objects: deepOverlay and deepMerge. */
module Overlay {
  import opened Wrappers
  import opened Json

  predicate BothObjects(d: Fields, s: Fields, k: string) {
    k in d && k in s && d[k].Obj? && s[k].Obj?
  }

  /** `s` laid over `d`: objects merge, everything else of `s` replaces, the rest of `d` stays. */
  function Over(d: Fields, s: Fields): Fields
    decreases Obj(s)
  {
    map k | k in d.Keys + s.Keys ::
      if k !in s then d[k]
      else if BothObjects(d, s, k) then Obj(Over(d[k].fields, s[k].fields))
      else s[k]
  }

  function Only(s: Fields, keys: set<string>): Fields { map k | k in s && k in keys :: s[k] }

  /** What one key of the source makes of the destination's value. */
  function Merged(d: Fields, s: Fields, k: string): Json
    requires k in s
  {
    if BothObjects(d, s, k) then Obj(Over(d[k].fields, s[k].fields)) else s[k]
  }

  /** The keys still to visit and those already laid over, between two turns of a loop. */
  predicate LaidOver(fields: Fields, d: Fields, s: Fields, todo: set<string>) {
    todo <= s.Keys && fields == Over(d, Only(s, s.Keys - todo))
  }

  lemma NothingLaidOver(d: Fields, s: Fields)
    ensures LaidOver(d, d, s, s.Keys)
  {
  }

  lemma {:induction false} AllLaidOver(fields: Fields, d: Fields, s: Fields)
    requires LaidOver(fields, d, s, {})
    ensures fields == Over(d, s)
  {
  }

  lemma KeyLaidOver(fields: Fields, d: Fields, s: Fields, todo: set<string>, k: string)
    requires LaidOver(fields, d, s, todo) && k in todo
    ensures LaidOver(fields[k := Merged(fields, s, k)], d, s, todo - {k})
  {
  }

  /** A Go map of type map[string]any, updated in place. */
  class JsonMap {
    var fields: Fields

    constructor (fields: Fields)
      ensures this.fields == fields
    {
      this.fields := fields;
    }

    /** deepOverlay: the keys of the source come in any order. */
    method DeepOverlay(src: Fields)
      modifies this
      ensures fields == Over(old(fields), src)
      decreases Obj(src), 0
    {
      var todo := src.Keys;
      NothingLaidOver(fields, src);
      while todo != {}
        invariant LaidOver(fields, old(fields), src, todo)
        decreases |todo|
      {
        var k :| k in todo;
        KeyLaidOver(fields, old(fields), src, todo, k);
        OverlayKey(k, src[k]);
        todo := todo - {k};
      }
      AllLaidOver(fields, old(fields), src);
    }

    /** One turn of deepOverlay's loop. */
    method OverlayKey(k: string, v: Json)
      modifies this
      ensures fields == old(fields)[k := Merged(old(fields), map[k := v], k)]
      decreases v, 1
    {
      if k in fields && fields[k].Obj? && v.Obj? {
        var existing := new JsonMap(fields[k].fields);
        assert v == Obj(v.fields);
        existing.DeepOverlay(v.fields);
        fields := fields[k := Obj(existing.fields)];
      } else {
        fields := fields[k := v];
      }
    }

    /** deepMerge: protected keys of the source are skipped at this level, none are further down. */
    method DeepMerge(src: Fields, protected: set<string>)
      modifies this
      ensures fields == Over(old(fields), src - protected)
      decreases Obj(src), 0
    {
      var todo := src.Keys;
      ghost var rest := src - protected;
      NothingLaidOver(fields, rest);
      assert src.Keys - protected == rest.Keys;
      while todo != {}
        invariant todo <= src.Keys
        invariant LaidOver(fields, old(fields), rest, todo - protected)
        decreases |todo|
      {
        var k :| k in todo;
        if k in protected {
          assert todo - {k} - protected == todo - protected;
        } else {
          KeyLaidOver(fields, old(fields), rest, todo - protected, k);
          assert todo - {k} - protected == todo - protected - {k};
          MergeKey(k, src[k]);
        }
        todo := todo - {k};
      }
      assert {} - protected == {};
      AllLaidOver(fields, old(fields), rest);
    }

    /** One turn of deepMerge's loop for a key that is not protected. */
    method MergeKey(k: string, v: Json)
      modifies this
      ensures fields == old(fields)[k := Merged(old(fields), map[k := v], k)]
      decreases v, 1
    {
      if k in fields && fields[k].Obj? && v.Obj? {
        var existing := new JsonMap(fields[k].fields);
        assert v == Obj(v.fields) && v.fields - {} == v.fields;
        existing.DeepMerge(v.fields, {});
        fields := fields[k := Obj(existing.fields)];
      } else {
        fields := fields[k := v];
      }
    }
  }

  // ---- what an overlay is ----------------------------------------------------------------------

  /** The value at the end of a path of keys. */
  function At(j: Json, path: seq<string>): Option<Json> {
    if path == [] then Some(j)
    else if j.Obj? && path[0] in j.fields then At(j.fields[path[0]], path[1..])
    else None
  }

  /** The source has a value somewhere on the path that does not meet an object with an object. */
  predicate SourceDecides(d: Json, s: Json, path: seq<string>) {
    if !d.Obj? || !s.Obj? then true
    else if path == [] || path[0] !in s.fields then false
    else if path[0] !in d.fields then true
    else SourceDecides(d.fields[path[0]], s.fields[path[0]], path[1..])
  }

  /**
   * Path by path: below a place the source decides, everything is the source's; where the
   * source has nothing, everything is the destination's; where both have objects, so has
   * the result.
   */
  lemma {:induction false} OverlayByPath(d: Fields, s: Fields, path: seq<string>)
    ensures var out := At(Obj(Over(d, s)), path);
            && (SourceDecides(Obj(d), Obj(s), path) ==> out == At(Obj(s), path))
            && (!SourceDecides(Obj(d), Obj(s), path) && At(Obj(s), path).None? ==> out == At(Obj(d), path))
            && (!SourceDecides(Obj(d), Obj(s), path) && At(Obj(s), path).Some? ==>
                  && At(Obj(s), path).value.Obj? && At(Obj(d), path).Some? && At(Obj(d), path).value.Obj?
                  && out == Some(Obj(Over(At(Obj(d), path).value.fields, At(Obj(s), path).value.fields))))
    decreases |path|
  {
    if path != [] {
      var k, rest := path[0], path[1..];
      if BothObjects(d, s, k) {
        var dk, sk := d[k].fields, s[k].fields;
        assert d[k] == Obj(dk) && s[k] == Obj(sk);
        OverlayByPath(dk, sk, rest);
        assert Over(d, s)[k] == Obj(Over(dk, sk));
        assert At(Obj(Over(d, s)), path) == At(Obj(Over(dk, sk)), rest);
        assert At(Obj(d), path) == At(Obj(dk), rest) && At(Obj(s), path) == At(Obj(sk), rest);
        assert SourceDecides(Obj(d), Obj(s), path) == SourceDecides(Obj(dk), Obj(sk), rest);
      } else if k in s && k in d {
        assert SourceDecides(d[k], s[k], rest);
      }
    }
  }

  /** Every entry of `s` is already in `d`. */
  predicate Within(s: Fields, d: Fields) {
    forall k :: k in s ==> k in d && d[k] == s[k]
  }

  /** Laying over what is already there changes nothing; in particular an object over itself. */
  lemma {:induction false} OverlayWithin(d: Fields, s: Fields)
    requires Within(s, d)
    ensures Over(d, s) == d
    decreases Obj(s)
  {
    forall k | k in s && s[k].Obj? ensures Over(d[k].fields, s[k].fields) == d[k].fields {
      assert s[k] == Obj(s[k].fields);
      OverlayWithin(d[k].fields, s[k].fields);
    }
    assert Over(d, s).Keys == d.Keys;
  }

  /** Laying the same object over a second time changes nothing. */
  lemma {:induction false} OverlayTwice(d: Fields, s: Fields)
    ensures Over(Over(d, s), s) == Over(d, s)
    decreases Obj(s)
  {
    var once := Over(d, s);
    forall k | k in s ensures Over(once, s)[k] == once[k] {
      if s[k].Obj? {
        assert s[k] == Obj(s[k].fields);
        if BothObjects(d, s, k) {
          OverlayTwice(d[k].fields, s[k].fields);
        } else {
          OverlayWithin(s[k].fields, s[k].fields);
        }
      }
    }
    assert Over(once, s).Keys == once.Keys;
  }

  /** deepMerge with nothing protected is deepOverlay; in general it is the overlay of the rest. */
  lemma {:induction false} ProtectedKeysStay(d: Fields, s: Fields, protected: set<string>, k: string)
    ensures k in protected ==> (k in Over(d, s - protected) <==> k in d)
    ensures k in protected && k in d ==> Over(d, s - protected)[k] == d[k]
    ensures k !in protected && k in s ==> k in Over(d, s - protected) && Over(d, s - protected)[k] == Merged(d, s, k)
    ensures Over(d, s - {}) == Over(d, s)
  {
  }
}
