/**
 * The variable-selection store: a fixed, ordered list of categories, each an
 * ordered list of variables carrying an `active` flag, and its one operation,
 * `toggleVariableActive(categoryName, variableName)`.
 */
module Variables {

  datatype Variable = Variable(name: string, active: bool)

  datatype Category = Category(name: string, variables: seq<Variable>)

  /** The categories the store starts with. */
  const InitialCategories: seq<Category> := [
    Category("Variable category 1", [
      Variable("Carbon 1", false),
      Variable("Co2 Distribution", true),
      Variable("Fleet sizing", true)
    ]),
    Category("Variable Category 2", [
      Variable("Parking Rate", false),
      Variable("Border Rate", true),
      Variable("Request rate", true),
      Variable("Variable 1", false),
      Variable("Variable 2", false),
      Variable("Variable 3", true)
    ]),
    Category("Variable Category 3", [
      Variable("Variable 1", false),
      Variable("Variable 2", true),
      Variable("Variable 3", true)
    ])
  ]

  /** Both lists have the same variable names in the same order. */
  predicate SameVariableShape(u: seq<Variable>, w: seq<Variable>) {
    |u| == |w| && forall j :: 0 <= j < |u| ==> u[j].name == w[j].name
  }

  /**
   * Both lists have the same category names in the same order, and each pair
   * of categories the same variable names in the same order: at most the
   * `active` flags differ.
   */
  predicate SameShape(a: seq<Category>, b: seq<Category>) {
    |a| == |b| &&
    forall i :: 0 <= i < |a| ==>
      a[i].name == b[i].name && SameVariableShape(a[i].variables, b[i].variables)
  }

  /** Variable `v` of category `c` is the one a toggle of (categoryName, variableName) addresses. */
  predicate Addressed(c: Category, v: Variable, categoryName: string, variableName: string) {
    c.name == categoryName && v.name == variableName
  }

  /** Some variable of `cats` is addressed by (categoryName, variableName). */
  predicate Targets(cats: seq<Category>, categoryName: string, variableName: string) {
    exists i, j :: 0 <= i < |cats| && 0 <= j < |cats[i].variables| &&
      Addressed(cats[i], cats[i].variables[j], categoryName, variableName)
  }

  /** Category names are pairwise distinct, and so are variable names within each category. */
  predicate NamesUnique(cats: seq<Category>) {
    (forall i, k :: 0 <= i < k < |cats| ==> cats[i].name != cats[k].name) &&
    (forall i :: 0 <= i < |cats| ==> VariableNamesUnique(cats[i].variables))
  }

  predicate VariableNamesUnique(vs: seq<Variable>) {
    forall j, k :: 0 <= j < k < |vs| ==> vs[j].name != vs[k].name
  }

  /** The inner `map`: flips every variable of the list called `variableName`. */
  function ToggleInVariables(vs: seq<Variable>, variableName: string): (r: seq<Variable>)
    ensures SameVariableShape(vs, r)
    ensures forall j :: 0 <= j < |vs| ==>
      r[j].active == (if vs[j].name == variableName then !vs[j].active else vs[j].active)
  {
    if vs == [] then []
    else
      var v := vs[0];
      [if v.name == variableName then v.(active := !v.active) else v]
        + ToggleInVariables(vs[1..], variableName)
  }

  /**
   * The outer `map` of `toggleVariableActive`: every category called
   * `categoryName` gets its variables called `variableName` flipped; every
   * other category is kept as it is.
   */
  function Toggled(cats: seq<Category>, categoryName: string, variableName: string): (r: seq<Category>)
    ensures SameShape(cats, r)
    ensures forall i, j :: 0 <= i < |cats| && 0 <= j < |cats[i].variables| ==>
      r[i].variables[j].active ==
        (if Addressed(cats[i], cats[i].variables[j], categoryName, variableName)
         then !cats[i].variables[j].active
         else cats[i].variables[j].active)
  {
    if cats == [] then []
    else
      var c := cats[0];
      [if c.name == categoryName then c.(variables := ToggleInVariables(c.variables, variableName)) else c]
        + Toggled(cats[1..], categoryName, variableName)
  }

  /** Two category lists of the same shape whose flags agree everywhere are equal. */
  lemma EqualByFlags(a: seq<Category>, b: seq<Category>)
    requires SameShape(a, b)
    requires forall i, j :: 0 <= i < |a| && 0 <= j < |a[i].variables| ==>
      a[i].variables[j].active == b[i].variables[j].active
    ensures a == b
  {
    forall i | 0 <= i < |a|
      ensures a[i] == b[i]
    {
      assert a[i].variables == b[i].variables by {
        forall j | 0 <= j < |a[i].variables|
          ensures a[i].variables[j] == b[i].variables[j]
        {
        }
      }
    }
  }

  lemma SameShapeTransitive(a: seq<Category>, b: seq<Category>, c: seq<Category>)
    requires SameShape(a, b) && SameShape(b, c)
    ensures SameShape(a, c)
  {
  }

  /** Toggling the same pair twice restores the categories exactly. */
  lemma ToggleInvolutive(cats: seq<Category>, categoryName: string, variableName: string)
    ensures Toggled(Toggled(cats, categoryName, variableName), categoryName, variableName) == cats
  {
    var once := Toggled(cats, categoryName, variableName);
    var twice := Toggled(once, categoryName, variableName);
    EqualByFlags(twice, cats);
  }

  /**
   * A toggle changes the categories if and only if some variable is
   * addressed: an unknown category, or a category without that variable,
   * makes it a silent no-op.
   */
  lemma ToggleChangesIffTargeted(cats: seq<Category>, categoryName: string, variableName: string)
    ensures Toggled(cats, categoryName, variableName) == cats <==> !Targets(cats, categoryName, variableName)
  {
    var r := Toggled(cats, categoryName, variableName);
    if Targets(cats, categoryName, variableName) {
      var i, j :| 0 <= i < |cats| && 0 <= j < |cats[i].variables| &&
        Addressed(cats[i], cats[i].variables[j], categoryName, variableName);
      assert r[i].variables[j].active != cats[i].variables[j].active;
    } else {
      EqualByFlags(r, cats);
    }
  }

  /** Toggles of any two pairs commute. */
  lemma ToggleCommutes(cats: seq<Category>, c1: string, v1: string, c2: string, v2: string)
    ensures Toggled(Toggled(cats, c1, v1), c2, v2) == Toggled(Toggled(cats, c2, v2), c1, v1)
  {
    var a := Toggled(Toggled(cats, c1, v1), c2, v2);
    var b := Toggled(Toggled(cats, c2, v2), c1, v1);
    SameShapeTransitive(cats, Toggled(cats, c1, v1), a);
    SameShapeTransitive(cats, Toggled(cats, c2, v2), b);
    EqualByFlags(a, b);
  }

  /**
   * With unique names, a toggle flips exactly the addressed variable: if
   * (i, j) is addressed, every other flag keeps its value.
   */
  lemma ToggleFlipsOnlyAddressed(cats: seq<Category>, categoryName: string, variableName: string, i: nat, j: nat)
    requires NamesUnique(cats)
    requires i < |cats| && j < |cats[i].variables|
    requires Addressed(cats[i], cats[i].variables[j], categoryName, variableName)
    ensures Toggled(cats, categoryName, variableName) ==
      cats[i := cats[i].(variables := cats[i].variables[j := cats[i].variables[j].(active := !cats[i].variables[j].active)])]
  {
    var r := Toggled(cats, categoryName, variableName);
    var expected :=
      cats[i := cats[i].(variables := cats[i].variables[j := cats[i].variables[j].(active := !cats[i].variables[j].active)])];
    assert SameShape(r, expected);
    forall k, l | 0 <= k < |r| && 0 <= l < |r[k].variables|
      ensures r[k].variables[l].active == expected[k].variables[l].active
    {
      if k != i {
        assert cats[k].name != cats[i].name by {
          if k < i {
            assert cats[k].name != cats[i].name;
          } else {
            assert cats[i].name != cats[k].name;
          }
        }
      } else if l != j {
        assert VariableNamesUnique(cats[i].variables);
        assert cats[i].variables[l].name != cats[i].variables[j].name by {
          if l < j {
            assert cats[i].variables[l].name != cats[i].variables[j].name;
          } else {
            assert cats[i].variables[j].name != cats[i].variables[l].name;
          }
        }
      }
    }
    EqualByFlags(r, expected);
  }

  lemma InitialNamesUnique()
    ensures NamesUnique(InitialCategories)
  {
  }

  /**
   * From the initial data, toggling ("Variable category 1", "Carbon 1")
   * makes Carbon 1 active and leaves every other flag as it was.
   */
  lemma ToggleCarbon1FromInitial()
    ensures Toggled(InitialCategories, "Variable category 1", "Carbon 1") ==
      InitialCategories[0 := Category("Variable category 1", [
        Variable("Carbon 1", true),
        Variable("Co2 Distribution", true),
        Variable("Fleet sizing", true)
      ])]
  {
    InitialNamesUnique();
    ToggleFlipsOnlyAddressed(InitialCategories, "Variable category 1", "Carbon 1", 0, 0);
    var c := InitialCategories[0];
    assert c.variables[0 := c.variables[0].(active := true)] ==
      [Variable("Carbon 1", true), Variable("Co2 Distribution", true), Variable("Fleet sizing", true)];
  }

  /**
   * Matching is scoped to the category: toggling ("Variable Category 2",
   * "Variable 1") flips that category's "Variable 1" and leaves
   * "Variable 1" of "Variable Category 3" untouched.
   */
  lemma ToggleIsScopedToCategory()
    ensures Toggled(InitialCategories, "Variable Category 2", "Variable 1")[1].variables[3] == Variable("Variable 1", true)
    ensures Toggled(InitialCategories, "Variable Category 2", "Variable 1")[2] == InitialCategories[2]
  {
    InitialNamesUnique();
    ToggleFlipsOnlyAddressed(InitialCategories, "Variable Category 2", "Variable 1", 1, 3);
  }

  /** The zustand store: one `categories` field, replaced wholesale by each toggle. */
  class VariableStore {
    var categories: seq<Category>

    /** The names and their order are those of the initial data, and they are unique. */
    ghost predicate Valid()
      reads this
    {
      SameShape(InitialCategories, categories) && NamesUnique(categories)
    }

    constructor ()
      ensures Valid()
      ensures categories == InitialCategories
    {
      categories := InitialCategories;
      InitialNamesUnique();
    }

    method ToggleVariableActive(categoryName: string, variableName: string)
      requires Valid()
      modifies this
      ensures Valid()
      ensures categories == Toggled(old(categories), categoryName, variableName)
    {
      var next := Toggled(categories, categoryName, variableName);
      SameShapeTransitive(InitialCategories, categories, next);
      categories := next;
    }
  }
}
