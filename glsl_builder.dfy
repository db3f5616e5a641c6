/**
 * The build context of the shader DSL (`GlslBuilder`, src/dsl.ts:144-177):
 * a pair of text accumulators and an emit-once cache that child builders share.
 */
module GlslBuild {

  /**
   * The emit-once cache (`Map<string, any>` in the source). Every callback the
   * core hands to `once` returns `undefined`, so the cache is modelled by the
   * set of keys it holds.
   */
  class EmitCache {
    var keys: set<string>

    constructor ()
      ensures keys == {}
    {
      keys := {};
    }

    /** `cache.has(key)`. */
    function Has(key: string): (r: bool)
      reads this
      ensures r <==> key in keys
    {
      key in keys
    }

    /** `cache.set(key, undefined)`, done by `once` after its callback ran. */
    method Remember(key: string)
      modifies this
      ensures keys == old(keys) + {key}
    {
      keys := keys + {key};
    }
  }

  class GlslBuilder {
    var global: string
    var local: string
    const cache: EmitCache

    /** `new GlslBuilder()`: empty text, a fresh empty cache. */
    constructor ()
      ensures global == "" && local == ""
      ensures fresh(cache) && cache.keys == {}
    {
      global := "";
      local := "";
      cache := new EmitCache();
    }

    /** `new GlslBuilder(cache)`: empty text over an existing cache. */
    constructor Sharing(cache: EmitCache)
      ensures global == "" && local == ""
      ensures this.cache == cache
    {
      global := "";
      local := "";
      this.cache := cache;
    }

    method AddGlobal(content: string)
      modifies this
      ensures global == old(global) + content
      ensures local == old(local)
    {
      global := global + content;
    }

    method AddLocal(content: string)
      modifies this
      ensures local == old(local) + content
      ensures global == old(global)
    {
      local := local + content;
    }

    /** `child()`: independent text accumulators, the same cache. */
    method Child() returns (c: GlslBuilder)
      ensures fresh(c)
      ensures c.cache == cache
      ensures c.global == "" && c.local == ""
    {
      c := new GlslBuilder.Sharing(cache);
    }
  }
}
