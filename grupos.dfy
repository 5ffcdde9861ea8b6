/** pandas' `groupby(column)['salario_usd']` and `value_counts()` over the records:
    the groups of a table by one column, each with how many rows it has and the mean
    salary of those rows. Groups are listed in the order in which their key first
    appears. */
module Grupos {
  import opened Dados
  import opened Sequences
  import opened Estatistica

  /** One entry of `groupby(...)['salario_usd'].mean()`. */
  datatype Grupo<K> = Grupo(chave: K, media: real)

  /** One entry of `value_counts()`. */
  datatype Contagem<K> = Contagem(chave: K, quantidade: nat)

  function ChaveDe<K>(g: Grupo<K>): K { g.chave }
  function MediaDe<K>(g: Grupo<K>): real { g.media }
  /** The key of a descending order by mean. */
  function MediaNegada<K>(g: Grupo<K>): real { -g.media }
  function ChaveDaContagem<K>(c: Contagem<K>): K { c.chave }
  function QuantidadeDe<K>(c: Contagem<K>): int { c.quantidade }
  /** The key of a descending order by count. */
  function QuantidadeNegada<K>(c: Contagem<K>): real { -(c.quantidade as real) }

  /** The rows of the group of `k`. */
  function Membros<K(==,!new)>(df: seq<Record>, key: Record -> K, k: K): seq<Record>
  {
    Filter((r: Record) => key(r) == k, df)
  }

  /** The salaries of the group of `k`. */
  function SalariosDoGrupo<K(==,!new)>(df: seq<Record>, key: Record -> K, k: K): seq<int>
  {
    Map(SalarioUsdDe, Membros(df, key, k))
  }

  /** A group has exactly as many rows as its key has occurrences in the column. */
  lemma {:induction false} TamanhoDoGrupo<K(!new)>(df: seq<Record>, key: Record -> K, k: K)
    ensures |Membros(df, key, k)| == multiset(Map(key, df))[k]
    decreases |df|
  {
    if df != [] {
      TamanhoDoGrupo(df[1..], key, k);
      assert Map(key, df) == [key(df[0])] + Map(key, df[1..]);
    }
  }

  /** A key that occurs has a non-empty group. */
  lemma GrupoPresente<K(!new)>(df: seq<Record>, key: Record -> K, k: K)
    requires k in Map(key, df)
    ensures |SalariosDoGrupo(df, key, k)| > 0
  {
    TamanhoDoGrupo(df, key, k);
  }

  /** `g` is the group of its key: the group has rows and `g.media` is their mean salary. */
  predicate MediaCorreta<K(==,!new)>(df: seq<Record>, key: Record -> K, g: Grupo<K>)
  {
    |SalariosDoGrupo(df, key, g.chave)| > 0 && g.media == Media(SalariosDoGrupo(df, key, g.chave))
  }

  /** The groups of the keys `ks`, in the order of `ks`. */
  function MediasDe<K(==,!new)>(df: seq<Record>, key: Record -> K, ks: seq<K>): (r: seq<Grupo<K>>)
    requires forall i :: 0 <= i < |ks| ==> ks[i] in Map(key, df)
    ensures Map(ChaveDe, r) == ks
    ensures forall i :: 0 <= i < |r| ==> MediaCorreta(df, key, r[i])
    decreases |ks|
  {
    if ks == [] then []
    else
      GrupoPresente(df, key, ks[0]);
      var g := Grupo(ks[0], Media(SalariosDoGrupo(df, key, ks[0])));
      var resto := MediasDe(df, key, ks[1..]);
      var r := [g] + resto;
      assert r[1..] == resto;
      assert Map(ChaveDe, r) == [g.chave] + Map(ChaveDe, resto);
      assert ks == [ks[0]] + ks[1..];
      r
  }

  /** `groupby(column)['salario_usd'].mean()`: one group per value present in the
      column, each value once, each group with the mean salary of its rows. */
  function MediaPorGrupo<K(==,!new)>(df: seq<Record>, key: Record -> K): (r: seq<Grupo<K>>)
    ensures NoDup(Map(ChaveDe, r))
    ensures forall k :: k in Map(ChaveDe, r) <==> k in Map(key, df)
    ensures forall i :: 0 <= i < |r| ==> MediaCorreta(df, key, r[i])
    ensures |r| == |Distinct(Map(key, df))|
  {
    MediasDe(df, key, Distinct(Map(key, df)))
  }

  /** Groups taken from correct groups are correct. */
  lemma GruposContidos<K(!new)>(df: seq<Record>, key: Record -> K, todos: seq<Grupo<K>>, alguns: seq<Grupo<K>>)
    requires forall i :: 0 <= i < |todos| ==> MediaCorreta(df, key, todos[i])
    requires forall g :: g in alguns ==> g in todos
    ensures forall i :: 0 <= i < |alguns| ==> MediaCorreta(df, key, alguns[i])
  {
    forall i | 0 <= i < |alguns| ensures MediaCorreta(df, key, alguns[i]) {
      assert alguns[i] in todos;
    }
  }

  /** A group's mean lies between the smallest and the largest salary of the table. */
  lemma MediaDoGrupoLimitada<K(!new)>(df: seq<Record>, key: Record -> K, g: Grupo<K>)
    requires MediaCorreta(df, key, g)
    ensures |df| > 0
    ensures Minimo(Map(SalarioUsdDe, df)) as real <= g.media <= Maximo(Map(SalarioUsdDe, df)) as real
  {
    var s := SalariosDoGrupo(df, key, g.chave);
    SalariosContidos(df, key, g.chave);
    ExtremosContidos(s, Map(SalarioUsdDe, df));
  }

  /** Every salary of a group is a salary of the table. */
  lemma SalariosContidos<K(!new)>(df: seq<Record>, key: Record -> K, k: K)
    ensures forall x :: x in SalariosDoGrupo(df, key, k) ==> x in Map(SalarioUsdDe, df)
  {
    var membros := Membros(df, key, k);
    var s := SalariosDoGrupo(df, key, k);
    forall x | x in s ensures x in Map(SalarioUsdDe, df) {
      var i :| 0 <= i < |s| && s[i] == x;
      assert membros[i] in df;
      var j :| 0 <= j < |df| && df[j] == membros[i];
      assert Map(SalarioUsdDe, df)[j] == x;
    }
  }

  /** The extremes of a column drawn from another lie within the other's extremes. */
  lemma ExtremosContidos(s: seq<int>, todos: seq<int>)
    requires |s| > 0
    requires forall x :: x in s ==> x in todos
    ensures |todos| > 0 && Minimo(todos) <= Minimo(s) && Maximo(s) <= Maximo(todos)
  {
    assert s[0] in s;
    assert Minimo(s) in todos && Maximo(s) in todos;
    var i :| 0 <= i < |todos| && todos[i] == Minimo(s);
    var j :| 0 <= j < |todos| && todos[j] == Maximo(s);
  }

  /** The counts of the keys `ks`, in the order of `ks`. */
  function ContagensDe<K(==,!new)>(df: seq<Record>, key: Record -> K, ks: seq<K>): (r: seq<Contagem<K>>)
    ensures Map(ChaveDaContagem, r) == ks
    ensures forall i :: 0 <= i < |r| ==> r[i].quantidade == |Membros(df, key, r[i].chave)|
    ensures SumBy(r, QuantidadeDe) == SumCounts(ks, multiset(Map(key, df)))
    decreases |ks|
  {
    if ks == [] then []
    else
      TamanhoDoGrupo(df, key, ks[0]);
      var c := Contagem(ks[0], |Membros(df, key, ks[0])|);
      var r := [c] + ContagensDe(df, key, ks[1..]);
      assert Map(ChaveDaContagem, r) == [c.chave] + Map(ChaveDaContagem, r[1..]);
      r
  }

  /** `value_counts()` in order of first appearance: every value present once, with
      its number of rows; the counts add up to the number of rows. */
  function ContagemPorValor<K(==,!new)>(df: seq<Record>, key: Record -> K): (r: seq<Contagem<K>>)
    ensures NoDup(Map(ChaveDaContagem, r))
    ensures forall k :: k in Map(ChaveDaContagem, r) <==> k in Map(key, df)
    ensures forall i :: 0 <= i < |r| ==> r[i].quantidade == multiset(Map(key, df))[r[i].chave]
    ensures SumBy(r, QuantidadeDe) == |df|
  {
    var ks := Distinct(Map(key, df));
    var r := ContagensDe(df, key, ks);
    forall i | 0 <= i < |r| ensures r[i].quantidade == multiset(Map(key, df))[r[i].chave] {
      TamanhoDoGrupo(df, key, r[i].chave);
    }
    CountsAddUp(ks, Map(key, df));
    r
  }

  /** Groups with distinct keys are distinct. */
  lemma GruposDistintos<K(!new)>(gs: seq<Grupo<K>>)
    requires NoDup(Map(ChaveDe, gs))
    ensures NoDup(gs)
  {
    var chaves := Map(ChaveDe, gs);
    forall i, j | 0 <= i < j < |gs| ensures gs[i] != gs[j] {
      assert chaves[i] != chaves[j];
    }
  }

  /** Two different groups of a list with distinct keys have different keys. */
  lemma ChavesDistintas<K(!new)>(gs: seq<Grupo<K>>, a: Grupo<K>, b: Grupo<K>)
    requires NoDup(Map(ChaveDe, gs))
    requires a in gs && b in gs && a != b
    ensures a.chave != b.chave
  {
    var chaves := Map(ChaveDe, gs);
    var i :| 0 <= i < |gs| && gs[i] == a;
    var j :| 0 <= j < |gs| && gs[j] == b;
    assert chaves[i] != chaves[j] by {
      if i < j { assert chaves[i] != chaves[j]; } else { assert chaves[j] != chaves[i]; }
    }
  }

  /** Groups drawn, each at most as often, from a list with distinct keys have
      distinct keys too. */
  lemma ChavesDistintasEmParte<K(!new)>(gs: seq<Grupo<K>>, r: seq<Grupo<K>>)
    requires NoDup(Map(ChaveDe, gs))
    requires multiset(r) <= multiset(gs)
    ensures NoDup(Map(ChaveDe, r))
  {
    GruposDistintos(gs);
    var chaves := Map(ChaveDe, r);
    forall i, j | 0 <= i < j < |r| ensures chaves[i] != chaves[j] {
      PosicoesDistintas(gs, r, i, j);
      assert r[i] in multiset(gs) && r[j] in multiset(gs);
      ChavesDistintas(gs, r[i], r[j]);
    }
  }

  /** Two positions of a sub-multiset of a list without duplicates hold different
      elements. */
  lemma PosicoesDistintas<T(!new)>(gs: seq<T>, r: seq<T>, i: nat, j: nat)
    requires NoDup(gs) && multiset(r) <= multiset(gs) && i < j < |r|
    ensures r[i] != r[j]
  {
    if r[i] == r[j] {
      assert r == r[..i] + [r[i]] + r[i + 1..j] + [r[j]] + r[j + 1..];
      assert multiset{r[i], r[j]} <= multiset(r);
      NoDupAtMostOnce(gs, r[i]);
      assert false;
    }
  }
}
