/**
 * `filtrar_usuario` and `buscar_conta_por_numero`: both keep the elements
 * whose key matches (a list comprehension) and return the first of them,
 * or `None` when there is none.
 */
module Lookup {
  import opened Wrappers
  import opened Accounts

  /** The elements of `xs` whose key is `k`, in their original order. */
  function Matching<T, K(==)>(xs: seq<T>, key: T -> K, k: K): (r: seq<T>)
    ensures |r| <= |xs|
    ensures forall i :: 0 <= i < |r| ==> key(r[i]) == k && r[i] in xs
    ensures forall i :: 0 <= i < |xs| && key(xs[i]) == k ==> xs[i] in r
    ensures forall i :: 0 <= i < |xs| && key(xs[i]) == k
                        && (forall j :: 0 <= j < i ==> key(xs[j]) != k)
                        ==> |r| > 0 && r[0] == xs[i]
    decreases |xs|
  {
    if xs == [] then []
    else
      var rest := Matching(xs[1..], key, k);
      assert forall i :: 1 <= i < |xs| ==> xs[i] == xs[1..][i - 1];
      (if key(xs[0]) == k then [xs[0]] else []) + rest
  }

  /** Filtering a concatenation filters each part: matches keep their order and their number. */
  lemma {:induction false} MatchingAppend<T, K>(xs: seq<T>, ys: seq<T>, key: T -> K, k: K)
    ensures Matching(xs + ys, key, k) == Matching(xs, key, k) + Matching(ys, key, k)
    decreases |xs|
  {
    if xs != [] {
      assert (xs + ys)[1..] == xs[1..] + ys;
      MatchingAppend(xs[1..], ys, key, k);
    } else {
      assert xs + ys == ys;
    }
  }

  /** A single element is kept exactly when its key matches. */
  lemma MatchingSingle<T, K>(x: T, key: T -> K, k: K)
    ensures Matching([x], key, k) == if key(x) == k then [x] else []
  {
    assert [x][1..] == [];
  }

  /** The first element whose key is `k`, or `None` when no element has it. */
  function FirstMatch<T, K(==)>(xs: seq<T>, key: T -> K, k: K): (r: Option<T>)
    ensures r.None? <==> forall i :: 0 <= i < |xs| ==> key(xs[i]) != k
    ensures r.Some? ==> r.value in xs && key(r.value) == k
    ensures forall i :: 0 <= i < |xs| && key(xs[i]) == k
                        && (forall j :: 0 <= j < i ==> key(xs[j]) != k)
                        ==> r == Some(xs[i])
  {
    var matching := Matching(xs, key, k);
    if |matching| > 0 then Some(matching[0]) else None
  }

  /** `filtrar_usuario`: the first client with this CPF. */
  function FindUser(cpf: string, users: seq<Client>): (r: Option<Client>)
    ensures r.None? <==> forall i :: 0 <= i < |users| ==> users[i].cpf != cpf
    ensures r.Some? ==> r.value in users && r.value.cpf == cpf
    ensures forall i :: 0 <= i < |users| && users[i].cpf == cpf
                        && (forall j :: 0 <= j < i ==> users[j].cpf != cpf)
                        ==> r == Some(users[i])
  {
    FirstMatch(users, (u: Client) => u.cpf, cpf)
  }

  /** `buscar_conta_por_numero`: the first account with this number. */
  function FindAccountByNumber(number: int, accounts: seq<Account>): (r: Option<Account>)
    ensures r.None? <==> forall i :: 0 <= i < |accounts| ==> accounts[i].number != number
    ensures r.Some? ==> r.value in accounts && r.value.number == number
    ensures forall i :: 0 <= i < |accounts| && accounts[i].number == number
                        && (forall j :: 0 <= j < i ==> accounts[j].number != number)
                        ==> r == Some(accounts[i])
  {
    FirstMatch(accounts, (a: Account) => a.number, number)
  }
}
