# New York pizza store: the Factory Method step

This project models `NYStylePizzaStore.createPizza(String type)`, the
factory method by which the New York store decides which concrete pizza to
build. Given a type identifier, the store builds a New York style cheese
pizza when the identifier is exactly `"cheese"` and returns `null` for every
other identifier. The model is a pure Dafny function from `string` to
`Option<PizzaKind>`:

- `Wrappers.Option` makes the "not found" outcome explicit. `None` stands for Java `null`.
- `Pizza.PizzaKind` is a tag for the concrete pizza class. `NYStyleCheese` stands for `NYStyleCheesePizza`. `OtherPizza(className)` stands for any other subclass of `Pizza`, which the method's declared return type also admits.
- `JavaString` spells out what `String.equals` means for two strings: same length, then the same character at every position. It proves that this is exactly sequence equality, so matching is exact and case-sensitive.
- `NYStylePizzaStore.CreatePizza` does what the Java method does: one branch on `type.equals("cheese")`. The lemmas beside it give the whole input/output contract.

`NYStylePizzaStore` declares no fields and `createPizza` reads none.
`CreatePizza` is therefore a function that reads nothing. A call changes no state, and equal identifiers always get equal
outcomes.

## Model

| member | source | states |
|---|---|---|
| `NYStylePizzaStore.CreatePizza` | Design_patterns/chapter4/src/main/java/com/rain/demo2/NYStylePizzaStore.java:6-12 | The result is present if and only if the identifier equals "cheese". A present result is always the New York style cheese pizza. It is proved from the Java `equals` test that the body performs. |
| `NYStylePizzaStore.CheeseYieldsNYStyleCheese` | Design_patterns/chapter4/src/main/java/com/rain/demo2/NYStylePizzaStore.java:7-8 | "cheese" always yields a present New York style cheese pizza. |
| `NYStylePizzaStore.OtherIdentifiersNotFound` | Design_patterns/chapter4/src/main/java/com/rain/demo2/NYStylePizzaStore.java:9-10 | Every identifier other than "cheese" yields the absent result, never a pizza. |
| `NYStylePizzaStore.NearMissesNotFound` | Design_patterns/chapter4/src/main/java/com/rain/demo2/NYStylePizzaStore.java:7 | "Cheese", "CHEESE", " cheese", "cheese ", "" and "veggie" all yield the absent result. |
| `NYStylePizzaStore.CaseVariantsNotFound` | Design_patterns/chapter4/src/main/java/com/rain/demo2/NYStylePizzaStore.java:7 | Any spelling of "cheese" in another ASCII letter case fails the `equals` test and is not found. |
| `NYStylePizzaStore.OnlyNYStyleCheeseReachable` | Design_patterns/chapter4/src/main/java/com/rain/demo2/NYStylePizzaStore.java:6-12 | Whatever the identifier, the result is absent or the New York style cheese pizza. No other `Pizza` subclass that the declared return type admits can come back from this store. |
| `NYStylePizzaStore.EqualIdentifiersSameOutcome` | Design_patterns/chapter4/src/main/java/com/rain/demo2/NYStylePizzaStore.java:5-13 | Identifiers that are equal in the Java sense get the same outcome: the same presence and the same variant. |
| `JavaString.StringEquals` | Design_patterns/chapter4/src/main/java/com/rain/demo2/NYStylePizzaStore.java:7 | `type.equals("cheese")`: the lengths are compared first, and strings of different lengths are never equal. Only then are the characters compared. |
| `JavaString.CharsEqualFrom` | Design_patterns/chapter4/src/main/java/com/rain/demo2/NYStylePizzaStore.java:7 | The front-to-back character comparison inside `equals`. When it succeeds from position i, every character from i on matched. |
| `JavaString.CharsEqualFromIsSuffixEquality` | Design_patterns/chapter4/src/main/java/com/rain/demo2/NYStylePizzaStore.java:7 | The character-by-character comparison from position i succeeds exactly when the two suffixes from i are the same sequence. |
| `JavaString.StringEqualsIsEquality` | Design_patterns/chapter4/src/main/java/com/rain/demo2/NYStylePizzaStore.java:7 | Java `equals` on two strings holds if and only if they are the same character sequence, in both directions. |
| `JavaString.StringEqualsSymmetric` | Design_patterns/chapter4/src/main/java/com/rain/demo2/NYStylePizzaStore.java:7 | `type.equals("cheese")` and `"cheese".equals(type)` always agree. |
| `JavaString.StringEqualsIsCaseSensitive` | Design_patterns/chapter4/src/main/java/com/rain/demo2/NYStylePizzaStore.java:7 | Two strings that differ only in ASCII letter case are not equal under `equals`. |

## Left out

- The base class `PizzaStore` and its ordering workflow are not part of this model. `PizzaStore` is defined outside the modelled file, so the model does not guess its workflow. The store is modelled as one function with no polymorphic dispatch over other stores.
- The pizza classes `com.rain.demo1.Pizza`, `NYStyleCheesePizza` and the other subclasses of `Pizza` are not part of this model. They are defined outside the modelled file, so a concrete pizza is an opaque tag with no fields or methods.
- Java object identity and allocation are not modelled. Results are values, so the model does not say whether two calls return the same object or two different ones.
- A `null` argument is not modelled. In Java, `type.equals` would throw a `NullPointerException`. A Dafny `string` is never null.
- Characters are Dafny characters, which are Unicode scalar values. Java compares UTF-16 code units. Both are exact comparisons, and the identifier "cheese" is plain ASCII, so the outcome of the match is the same.
- The identity shortcut inside `String.equals` (`this == anObject`) is not modelled. An identical object always has equal contents, so it does not change the result.
