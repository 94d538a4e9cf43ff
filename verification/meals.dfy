/** app/endpoints/meal.py: meal analyses saved in their own TinyDB table
    and listed per user. The caller's username comes from the token. */
module Meals {
  import opened Wrappers
  import opened Records
  import opened Seqs

  /** A request body before validation; a missing key or JSON null is `None`. */
  datatype MealBody = MealBody(analise: Option<string>, imagemNome: Option<string>)

  /** The rows saved by `username`, in table order:
      `db.search(UserQ.usuario == username)`. */
  function MealsOf(meals: seq<Meal>, username: string): (r: seq<Meal>)
    ensures |r| <= |meals|
    ensures forall m :: m in r ==> m in meals && m.usuario == username
  {
    Filter((m: Meal) => m.usuario == username, meals)
  }

  class MealTable {
    var meals: seq<Meal>

    constructor ()
      ensures meals == []
    {
      meals := [];
    }

    /** `save_meal`: `analise` is required, `imagem_nome` defaults to `None`;
        one row is inserted with the caller as `usuario` and `now` as `data`. */
    method SaveMeal(username: string, body: MealBody, now: int) returns (r: Result<string, HttpError>)
      modifies this
      ensures body.analise.None? ==> r == Failure(ValidationError) && meals == old(meals)
      ensures body.analise.Some? ==>
                r.Success? && meals == old(meals) + [Meal(username, body.analise.value, body.imagemNome, now)]
    {
      if body.analise.None? {
        return Failure(ValidationError);
      }
      meals := meals + [Meal(username, body.analise.value, body.imagemNome, now)];
      r := Success("Refeição salva com sucesso!");
    }

    /** `get_meal_history`. */
    method History(username: string) returns (r: seq<Meal>)
      ensures r == MealsOf(meals, username)
    {
      r := MealsOf(meals, username);
    }
  }

  /** The history holds exactly the caller's rows, each as often as stored. */
  lemma HistoryExactly(meals: seq<Meal>, username: string)
    ensures forall m :: m in MealsOf(meals, username) <==> m in meals && m.usuario == username
    ensures forall m :: multiset(MealsOf(meals, username))[m] ==
                          if m.usuario == username then multiset(meals)[m] else 0
    ensures multiset(MealsOf(meals, username)) <= multiset(meals)
  {
    var p := (m: Meal) => m.usuario == username;
    forall m | m in meals && m.usuario == username ensures m in MealsOf(meals, username) {
      FilterComplete(p, meals, m);
    }
    forall m
      ensures multiset(MealsOf(meals, username))[m] == if m.usuario == username then multiset(meals)[m] else 0
    {
      FilterCount(p, meals, m);
    }
    FilterSubMultiset(p, meals);
  }

  /** A save adds the row to its owner's history, at the end, and leaves
      every other user's history as it was. */
  lemma SaveEffectOnHistory(meals: seq<Meal>, m: Meal, username: string)
    ensures m.usuario == username ==> MealsOf(meals + [m], username) == MealsOf(meals, username) + [m]
    ensures m.usuario != username ==> MealsOf(meals + [m], username) == MealsOf(meals, username)
  {
    FilterConcat((x: Meal) => x.usuario == username, meals, [m]);
  }
}
