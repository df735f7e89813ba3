/** The Factory Method step of the New York pizza store: from a type
    identifier to the concrete pizza it builds, or to the absent result. */
module NYStylePizzaStore {
  import opened Wrappers
  import opened Pizza
  import opened JavaString

  /** The only type identifier this store recognises. */
  const Cheese: string := "cheese"

  /** `createPizza(type)`: a New York style cheese pizza when `type` equals
      "cheese" under Java string equality, the absent result otherwise.
      The store has no fields, so the function reads nothing and a call
      changes nothing. */
  function CreatePizza(kind: string): (r: Option<PizzaKind>)
    ensures r.Some? <==> kind == Cheese
    ensures r.Some? ==> r.value == NYStyleCheese
  {
    StringEqualsIsEquality(kind, Cheese);
    if StringEquals(kind, Cheese) then Some(NYStyleCheese) else None
  }

  /** Asking for "cheese" always yields a New York style cheese pizza. */
  lemma CheeseYieldsNYStyleCheese()
    ensures CreatePizza("cheese") == Some(NYStyleCheese)
  {
  }

  /** Every identifier other than "cheese" yields the absent result. */
  lemma OtherIdentifiersNotFound(kind: string)
    requires kind != Cheese
    ensures CreatePizza(kind) == None
  {
  }

  /** Matching is exact and case-sensitive: a different letter case, a
      leading blank or the empty identifier are all not found, and so is
      an identifier the store does not sell. */
  lemma NearMissesNotFound()
    ensures CreatePizza("Cheese") == None
    ensures CreatePizza("CHEESE") == None
    ensures CreatePizza(" cheese") == None
    ensures CreatePizza("cheese ") == None
    ensures CreatePizza("") == None
    ensures CreatePizza("veggie") == None
  {
  }

  /** Any spelling of "cheese" in another letter case is not found. */
  lemma CaseVariantsNotFound(kind: string)
    requires SameIgnoringAsciiCase(kind, Cheese) && kind != Cheese
    ensures !StringEquals(kind, Cheese)
    ensures CreatePizza(kind) == None
  {
    StringEqualsIsCaseSensitive(kind, Cheese);
  }

  /** At most one variant is reachable: whatever the identifier, the result
      is either absent or a New York style cheese pizza. */
  lemma OnlyNYStyleCheeseReachable(kind: string)
    ensures CreatePizza(kind) in {None, Some(NYStyleCheese)}
  {
  }

  /** Determinism: identifiers that are equal in the Java sense get the same
      outcome, present or absent, and the same variant. */
  lemma EqualIdentifiersSameOutcome(a: string, b: string)
    requires StringEquals(a, b)
    ensures CreatePizza(a) == CreatePizza(b)
  {
    StringEqualsIsEquality(a, b);
  }
}
