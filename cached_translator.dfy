/**
 * The caching translator decorator (GameHubApi/Providers/CachedTranslator.cs). The cache key
 * is the hash of `{text}_{from}_{to}`; the hash function is a parameter of the model, since the
 * source's string hash differs from process to process and may collide.
 */
module CachedTranslation {
  import opened Wrappers
  import opened Text
  import opened Lru
  import opened CacheAside
  import opened Translation
  import Errors

  /** How a possibly-null language is interpolated: null becomes the empty string. */
  function Interpolated(s: Option<string>): string
  {
    if s.None? then "" else s.value
  }

  /** The string that is hashed into the key: `{text}_{from}_{to}`. */
  function KeySource(text: string, from: Option<string>, to: string): string
  {
    text + "_" + Interpolated(from) + "_" + to
  }

  /** A null source language and an empty one give the same key. */
  lemma NullAndEmptyFromShareKey(text: string, to: string)
    ensures KeySource(text, None, to) == KeySource(text, Some(""), to)
  {
  }

  /** Calls that differ only in where the text ends and the language begins can share a key. */
  lemma UnderscoreCollision()
    ensures KeySource("a_b", Some("c"), "d") == KeySource("a", Some("b_c"), "d")
  {
    assert KeySource("a_b", Some("c"), "d") == "a_b_c_d";
    assert KeySource("a", Some("b_c"), "d") == "a_b_c_d";
  }

  /** Without '_' in the text and the source language, the key source determines the call. */
  lemma KeySourceInjective(text1: string, from1: Option<string>, to1: string,
                           text2: string, from2: Option<string>, to2: string)
    requires '_' !in text1 && '_' !in Interpolated(from1)
    requires '_' !in text2 && '_' !in Interpolated(from2)
    requires KeySource(text1, from1, to1) == KeySource(text2, from2, to2)
    ensures text1 == text2 && Interpolated(from1) == Interpolated(from2) && to1 == to2
  {
    var f1, f2 := Interpolated(from1), Interpolated(from2);
    assert KeySource(text1, from1, to1) == text1 + ['_'] + (f1 + ['_'] + to1);
    assert KeySource(text2, from2, to2) == text2 + ['_'] + (f2 + ['_'] + to2);
    SeparatorCancel(text1, f1 + ['_'] + to1, text2, f2 + ['_'] + to2, '_');
    SeparatorCancel(f1, to1, f2, to2, '_');
  }

  class CachedTranslator {
    const translationCache: LruCache<string, string>
    const azureTranslator: Translator
    /** `string.GetHashCode().ToString("X8")`. */
    const keyHash: string -> string

    ghost predicate Valid()
      reads this, translationCache
    {
      translationCache.Valid()
    }

    /** The cache key of a call. */
    function Key(text: string, from: Option<string>, to: string): string
    {
      keyHash(KeySource(text, from, to))
    }

    constructor(translationCache: LruCache<string, string>, azureTranslator: Translator, keyHash: string -> string)
      ensures this.translationCache == translationCache && this.azureTranslator == azureTranslator
      ensures this.keyHash == keyHash
    {
      this.translationCache := translationCache;
      this.azureTranslator := azureTranslator;
      this.keyHash := keyHash;
    }

    /**
     * The source's constructor: a null factory, then a null cache, then a null "Base" translator
     * are rejected, naming the parameter.
     */
    static method Create(translatorFactory: Option<string -> Translator?>, translationCache: LruCache?<string, string>,
                         keyHash: string -> string)
      returns (r: Result<CachedTranslator, Errors.Exception>)
      ensures translatorFactory.None? ==> r == Failure(Errors.ArgumentNullException("translatorFactory"))
      ensures translatorFactory.Some? && translationCache == null
              ==> r == Failure(Errors.ArgumentNullException("translationCache"))
      ensures translatorFactory.Some? && translationCache != null && translatorFactory.value("Base") == null
              ==> r == Failure(Errors.ArgumentNullException("translatorFactory"))
      ensures translatorFactory.Some? && translationCache != null && translatorFactory.value("Base") != null
              ==> r.Success? && fresh(r.value) && r.value.azureTranslator == translatorFactory.value("Base")
                  && r.value.translationCache == translationCache && r.value.keyHash == keyHash
    {
      if translatorFactory.None? { return Failure(Errors.ArgumentNullException("translatorFactory")); }
      if translationCache == null { return Failure(Errors.ArgumentNullException("translationCache")); }
      var azureTranslator := translatorFactory.value("Base");
      if azureTranslator == null { return Failure(Errors.ArgumentNullException("translatorFactory")); }
      var c := new CachedTranslator(translationCache, azureTranslator, keyHash);
      return Success(c);
    }

    /**
     * `Translate`, at instant `now`: a blank text, then a blank target language, is rejected
     * before the cache is consulted; otherwise cache-aside under the hashed key.
     */
    method Translate(text: string, from: Option<string>, to: string, now: int) returns (r: Result<string, Errors.Exception>)
      requires Valid()
      modifies translationCache, azureTranslator
      ensures Valid()
      ensures IsNullOrWhiteSpace(Some(text)) ==>
                r == Failure(Errors.ArgumentException("text"))
                && translationCache.list == old(translationCache.list) && azureTranslator.calls == old(azureTranslator.calls)
      ensures !IsNullOrWhiteSpace(Some(text)) && IsNullOrWhiteSpace(Some(to)) ==>
                r == Failure(Errors.ArgumentException("to"))
                && translationCache.list == old(translationCache.list) && azureTranslator.calls == old(azureTranslator.calls)
      ensures !IsNullOrWhiteSpace(Some(text)) && !IsNullOrWhiteSpace(Some(to)) ==>
              var s := Serve(old(translationCache.list), translationCache.size, Key(text, from, to), now,
                             azureTranslator.translate(text, from, to), Always);
              && r == s.result
              && translationCache.list == s.cache
              && azureTranslator.calls == old(azureTranslator.calls)
                                          + (if s.upstreamCalled then [TranslateCall(text, from, to)] else [])
    {
      if IsNullOrWhiteSpace(Some(text)) {
        return Failure(Errors.ArgumentException("text"));
      }
      if IsNullOrWhiteSpace(Some(to)) {
        return Failure(Errors.ArgumentException("to"));
      }
      var cacheKey := keyHash(text + "_" + Interpolated(from) + "_" + to);
      var cachedTranslation := translationCache.Get(cacheKey, now);
      if cachedTranslation.Some? {
        return Success(cachedTranslation.value);
      }
      r := azureTranslator.Translate(text, from, to);
      if r.Success? {
        translationCache.Set(cacheKey, r.value, Some(CacheTimeToLive), now);
      }
    }
  }

  /**
   * Because the key ignores where the text ends, a translation cached for one call is served
   * to a different call with the same key source, without asking the translator.
   */
  lemma CollidingCallsShareTranslation(cache: seq<Entry<string, string>>, size: int, keyHash: string -> string,
                                       now: int, translation: string, other: Result<string, Errors.Exception>)
    requires 1 <= size
    requires Hit(cache, keyHash(KeySource("a_b", Some("c"), "d")), now, Always).None?
    ensures var first := Serve(cache, size, keyHash(KeySource("a_b", Some("c"), "d")), now, Success(translation),
                               Always);
            var second := Serve(first.cache, size, keyHash(KeySource("a", Some("b_c"), "d")), now, other,
                                Always);
            second.result == Success(translation) && !second.upstreamCalled
  {
    UnderscoreCollision();
    MissStoresAnswer(cache, size, keyHash(KeySource("a_b", Some("c"), "d")), now, translation,
                     Always, now, other);
  }
}
