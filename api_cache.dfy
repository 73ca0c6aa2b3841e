/** `useApiCache`: a module-wide cache of API responses keyed by string, and the hook state that
    reads it. The awaited fetch is taken as finished: its outcome and the clock readings before and
    after it are parameters. */
module ApiCache {
  import opened Wrappers
  import opened Strings

  /** A cached response and the time it was stored, in milliseconds. */
  datatype Entrada<T> = Entrada(dados: T, instante: int)

  /** The module-level `cache` map, shared by every hook. */
  class Cache<T> {
    var entradas: map<string, Entrada<T>>

    constructor ()
      ensures entradas == map[]
    {
      entradas := map[];
    }

    /** `cache.set(key, entry)`. */
    method Gravar(chave: string, e: Entrada<T>)
      modifies this
      ensures entradas == old(entradas)[chave := e]
    {
      entradas := entradas[chave := e];
    }

    /** `clearCacheKey(key)` and the hook's `clearCache`. */
    method Apagar(chave: string)
      modifies this
      ensures entradas == old(entradas) - {chave}
    {
      entradas := entradas - {chave};
    }

    /** `clearAllCache`. */
    method Limpar()
      modifies this
      ensures entradas == map[]
    {
      entradas := map[];
    }

    /** `invalidateCachePrefix`: collects the keys that start with the prefix, then deletes them;
        every other entry stays as it was. */
    method InvalidarPrefixo(prefixo: string)
      modifies this
      ensures entradas == map k | k in old(entradas) && !StartsWith(k, prefixo) :: old(entradas)[k]
    {
      var aApagar := ChavesComPrefixo(entradas.Keys, prefixo);
      var restantes := aApagar;
      while restantes != {}
        invariant restantes <= aApagar
        invariant entradas == map k | k in old(entradas) && k !in aApagar - restantes :: old(entradas)[k]
        decreases restantes
      {
        var k :| k in restantes;
        entradas := entradas - {k};
        restantes := restantes - {k};
      }
    }
  }

  /** The keys of `chaves` that start with `prefixo`. */
  method ChavesComPrefixo(chaves: set<string>, prefixo: string) returns (r: set<string>)
    ensures r == set k | k in chaves && StartsWith(k, prefixo)
  {
    r := {};
    var restantes := chaves;
    while restantes != {}
      invariant restantes <= chaves
      invariant r == set k | k in chaves - restantes && StartsWith(k, prefixo)
      decreases restantes
    {
      var k :| k in restantes;
      if StartsWith(k, prefixo) {
        r := r + {k};
      }
      restantes := restantes - {k};
    }
  }

  // ---------------------------------------------------------------------------
  // The hook

  const CACHE_TIME_PADRAO := 5 * 60 * 1000
  const STALE_TIME_PADRAO := 30 * 1000

  /** What `fetchData` does: serve the cached entry, refetching it in the background when it is
      stale, or fetch with the loading state on. */
  datatype Acao = ServirDoCache(emSegundoPlano: bool) | Buscar

  /** The decision of `fetchData`: an entry younger than `cacheTime` is served unless the call is
      forced, and refetched in the background once older than `staleTime`. */
  function Decidir<T>(cached: Option<Entrada<T>>, forcar: bool, agora: int, cacheTime: int, staleTime: int): (r: Acao)
    ensures r.ServirDoCache? <==> cached.Some? && !forcar && agora - cached.value.instante < cacheTime
    ensures r.ServirDoCache? ==> (r.emSegundoPlano <==> agora - cached.value.instante > staleTime)
  {
    if cached.Some? && !forcar && agora - cached.value.instante < cacheTime then
      ServirDoCache(agora - cached.value.instante > staleTime)
    else Buscar
  }

  /** A forced call (`revalidate`) always fetches; with no entry the hook always fetches. */
  lemma ForcarSempreBusca<T>(cached: Option<Entrada<T>>, agora: int, cacheTime: int, staleTime: int)
    ensures Decidir(cached, true, agora, cacheTime, staleTime) == Buscar
    ensures Decidir<T>(None, false, agora, cacheTime, staleTime) == Buscar
  {
  }

  /** With the default times an entry is served without a refetch for 30 s, with a background
      refetch up to 5 min, and fetched again after that. */
  lemma TemposPadrao<T>(e: Entrada<T>, agora: int)
    ensures 0 <= agora - e.instante <= 30000 ==>
      Decidir(Some(e), false, agora, CACHE_TIME_PADRAO, STALE_TIME_PADRAO) == ServirDoCache(false)
    ensures 30000 < agora - e.instante < 300000 ==>
      Decidir(Some(e), false, agora, CACHE_TIME_PADRAO, STALE_TIME_PADRAO) == ServirDoCache(true)
    ensures agora - e.instante >= 300000 ==>
      Decidir(Some(e), false, agora, CACHE_TIME_PADRAO, STALE_TIME_PADRAO) == Buscar
  {
  }

  /** The new value passed to `mutate`: a value, or a function of the current one. */
  datatype Mutacao<!T> = Valor(v: T) | Funcao(f: Option<T> -> T)

  /** The state of one `useApiCache(key, fetcher, options)` call. */
  class UseApiCache<T> {
    const cache: Cache<T>
    const chave: string
    const cacheTime: int
    const staleTime: int
    var dados: Option<T>
    var carregando: bool
    var erro: Option<string>
    /** `isMountedRef.current`. */
    var montado: bool

    /** The first render: options default to 5 minutes and 30 seconds, nothing loaded. */
    constructor (cache: Cache<T>, chave: string, cacheTime: Option<int>, staleTime: Option<int>)
      ensures this.cache == cache && this.chave == chave
      ensures this.cacheTime == (if cacheTime.Some? then cacheTime.value else CACHE_TIME_PADRAO)
      ensures this.staleTime == (if staleTime.Some? then staleTime.value else STALE_TIME_PADRAO)
      ensures dados.None? && !carregando && erro.None? && montado
    {
      this.cache := cache;
      this.chave := chave;
      this.cacheTime := if cacheTime.Some? then cacheTime.value else CACHE_TIME_PADRAO;
      this.staleTime := if staleTime.Some? then staleTime.value else STALE_TIME_PADRAO;
      dados := None;
      carregando := false;
      erro := None;
      montado := true;
    }

    function Cached(): Option<Entrada<T>>
      reads this, cache
    {
      if chave in cache.entradas then Some(cache.entradas[chave]) else None
    }

    /** `fetchData(forcar)` run to its end, the fetch (if one is made) answering `resposta` at
        `depois`. Served from the cache, the hook shows the entry with no loading state and no
        error, and a successful background refetch replaces it; a failed one is silent. Fetching,
        a success stores and shows the new data; a failure sets the error and shows the old entry,
        even expired, when there is one. Nothing is stored or shown once unmounted. */
    method FetchData(forcar: bool, agora: int, resposta: Result<T>, depois: int) returns (acao: Acao)
      modifies this, cache
      ensures acao == Decidir(old(Cached()), forcar, agora, cacheTime, staleTime)
      ensures montado == old(montado)
      ensures var refetch := acao == Buscar || acao == ServirDoCache(true);
        cache.entradas == if refetch && resposta.Ok? && montado
                          then old(cache.entradas)[chave := Entrada(resposta.value, depois)]
                          else old(cache.entradas)
      ensures acao.ServirDoCache? ==> !carregando && erro.None?
      ensures acao == ServirDoCache(false) ==> dados == Some(old(Cached()).value.dados)
      ensures acao == ServirDoCache(true) ==>
        dados == if resposta.Ok? && montado then Some(resposta.value) else Some(old(Cached()).value.dados)
      ensures acao == Buscar && montado ==> !carregando
      ensures acao == Buscar && !montado ==> carregando
      ensures acao == Buscar && montado && resposta.Ok? ==> dados == Some(resposta.value) && erro.None?
      ensures acao == Buscar && montado && resposta.Err? ==>
        erro == Some(resposta.error) && dados == (if old(Cached()).Some? then Some(old(Cached()).value.dados) else old(dados))
      ensures acao == Buscar && !montado ==> dados == old(dados) && erro.None?
    {
      var cached := Cached();
      acao := Decidir(cached, forcar, agora, cacheTime, staleTime);
      if acao.ServirDoCache? {
        dados := Some(cached.value.dados);
        carregando := false;
        erro := None;
        if acao.emSegundoPlano && resposta.Ok? && montado {
          cache.Gravar(chave, Entrada(resposta.value, depois));
          dados := Some(resposta.value);
        }
        return;
      }
      carregando := true;
      erro := None;
      if resposta.Ok? {
        if montado {
          cache.Gravar(chave, Entrada(resposta.value, depois));
          dados := Some(resposta.value);
        }
      } else if montado {
        erro := Some(resposta.error);
        if cached.Some? {
          dados := Some(cached.value.dados);
        }
      }
      if montado {
        carregando := false;
      }
    }

    /** `mutate(novo)`: stores the new value under the key with the current time and shows it. */
    method Mutate(novo: Mutacao<T>, agora: int)
      modifies this, cache
      ensures var v := if novo.Valor? then novo.v else novo.f(old(dados));
        cache.entradas == old(cache.entradas)[chave := Entrada(v, agora)] && dados == Some(v)
      ensures carregando == old(carregando) && erro == old(erro) && montado == old(montado)
    {
      var v := if novo.Valor? then novo.v else novo.f(dados);
      cache.Gravar(chave, Entrada(v, agora));
      dados := Some(v);
    }

    /** `revalidate()`: `fetchData(true)`, which never serves from the cache. */
    method Revalidate(agora: int, resposta: Result<T>, depois: int)
      modifies this, cache
      ensures cache.entradas == if resposta.Ok? && montado
                                then old(cache.entradas)[chave := Entrada(resposta.value, depois)]
                                else old(cache.entradas)
      ensures montado ==> !carregando
      ensures montado && resposta.Ok? ==> dados == Some(resposta.value) && erro.None?
      ensures montado && resposta.Err? ==>
        erro == Some(resposta.error) && dados == (if old(Cached()).Some? then Some(old(Cached()).value.dados) else old(dados))
      ensures !montado ==> carregando && dados == old(dados) && erro.None?
    {
      ForcarSempreBusca(Cached(), agora, cacheTime, staleTime);
      var _ := FetchData(true, agora, resposta, depois);
    }

    /** `clearCache()`: drops this hook's key from the shared cache; the data shown stays. */
    method ClearCache()
      modifies cache
      ensures cache.entradas == old(cache.entradas) - {chave}
    {
      cache.Apagar(chave);
    }

    /** The cleanup on unmount. */
    method Desmontar()
      modifies this
      ensures !montado && dados == old(dados) && carregando == old(carregando) && erro == old(erro)
    {
      montado := false;
    }
  }

  /** Right after `mutate`, a call at the same instant is served from the cache with the mutated
      value and no background refetch, unless forced (when `cacheTime` is positive and `staleTime`
      not negative, as with the defaults). */
  lemma MutateDepoisServe<T>(v: T, agora: int, cacheTime: int, staleTime: int)
    requires cacheTime > 0 && staleTime >= 0
    ensures Decidir(Some(Entrada(v, agora)), false, agora, cacheTime, staleTime) == ServirDoCache(false)
  {
  }
}
