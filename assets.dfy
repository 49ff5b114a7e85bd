/** The texture cache: textures keyed by the display string of their path, each
    loaded at most once. Loading reads a file and talks to the GPU, so the loader
    is a parameter; every call of it is recorded in the log `loads`. */
module Assets {
  import opened Types

  /** A cache lookup as a value: a hit returns the stored texture and keeps the
      cache; a miss loads the texture and inserts it. */
  function Lookup(textures: map<string, Texture>, path: string, load: string -> Texture): (r: (Texture, map<string, Texture>))
    ensures path in r.1 && r.1[path] == r.0
    ensures path in textures ==> r.0 == textures[path] && r.1 == textures
    ensures path !in textures ==> r.0 == load(path)
    ensures forall k :: k in textures ==> k in r.1 && r.1[k] == textures[k]
    ensures r.1.Keys == textures.Keys + {path}
  {
    if path in textures then (textures[path], textures)
    else
      var t := load(path);
      (t, textures[path := t])
  }

  /** The cache grows by at most one entry. */
  lemma LookupGrowsByAtMostOne(textures: map<string, Texture>, path: string, load: string -> Texture)
    ensures |Lookup(textures, path, load).1| == |textures| + (if path in textures then 0 else 1)
  {
    var r := Lookup(textures, path, load);
    if path !in textures {
      assert r.1.Keys == textures.Keys + {path};
      assert |r.1.Keys| == |textures.Keys| + 1;
    }
  }

  /** Looking the same path up twice gives the same texture, and the second lookup
      is a hit that changes nothing, whatever the loader. */
  lemma LookupTwice(textures: map<string, Texture>, path: string, load: string -> Texture, load2: string -> Texture)
    ensures var first := Lookup(textures, path, load);
      var second := Lookup(first.1, path, load2);
      second.0 == first.0 && second.1 == first.1
  {
  }

  class AssetSystem {
    var textures: map<string, Texture>
    /** The paths the loader was called with, in order. */
    var loads: seq<string>

    constructor ()
      ensures textures == map[] && loads == []
    {
      textures := map[];
      loads := [];
    }

    /** Returns the texture cached under the path, loading and caching it on a miss;
        the loader is called exactly when the path is not cached yet. */
    method GetTexture(path: string, load: string -> Texture) returns (texture: Texture)
      modifies this
      ensures (texture, textures) == Lookup(old(textures), path, load)
      ensures loads == old(loads) + (if path in old(textures) then [] else [path])
    {
      var key := path;
      if key !in textures {
        loads := loads + [path];
        textures := textures[key := load(path)];
      }
      texture := textures[key];
    }
  }

  /** The application, as far as textures go: it owns the asset system and hands
      texture requests to it. */
  class App {
    var assetSystem: AssetSystem

    constructor ()
      ensures fresh(assetSystem) && assetSystem.textures == map[] && assetSystem.loads == []
    {
      assetSystem := new AssetSystem();
    }

    method GetTexture(path: string, load: string -> Texture) returns (texture: Texture)
      modifies assetSystem
      ensures (texture, assetSystem.textures) == Lookup(old(assetSystem.textures), path, load)
      ensures assetSystem.loads == old(assetSystem.loads) + (if path in old(assetSystem.textures) then [] else [path])
    {
      texture := assetSystem.GetTexture(path, load);
    }
  }
}
