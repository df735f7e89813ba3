/** The pizzas a store's factory method may return. The declared return
    type of `createPizza` is the base class `Pizza`, so any of its
    subclasses could come back: `NYStyleCheese` names the one the New York
    store builds, and `OtherPizza` stands for every other subclass, known
    only by its class name. The pizza classes carry no modelled state. */
module Pizza {

  datatype PizzaKind =
    | NYStyleCheese               // an instance of `NYStyleCheesePizza`
    | OtherPizza(className: string) // an instance of any other `Pizza` subclass
}
