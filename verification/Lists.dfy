/** Lists taken apart at their end, the way a loop builds them up. */
module Lists {

  function DropLast<T>(es: seq<T>): seq<T>
    requires es != []
  {
    es[..|es| - 1]
  }

  function Last<T>(es: seq<T>): T
    requires es != []
  {
    es[|es| - 1]
  }

  lemma Snoc<T>(es: seq<T>)
    requires es != []
    ensures DropLast(es) + [Last(es)] == es
  {
  }
}
