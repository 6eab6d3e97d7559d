/** Building SQL conditions and updates from filter structs. A filter reaches the
    builder as a map, which Go iterates in any order; `order` is that order. The
    text is given its meaning by reading it from left to right and taking the
    positional arguments as they come. */
module QueryConditions {
  import opened Basics

  datatype Value = Null | Text(text: string) | Number(n: int)

  /** A scalar, or a slice passed through `bun.In`. */
  datatype Arg = One(v: Value) | Many(vs: seq<Value>)

  type Filter = map<string, Arg>
  type Row = map<string, Value>

  /** `order` lists the keys of `m`, each once. */
  ghost predicate Enumerates(order: seq<string>, m: Filter) {
    && (forall k :: k in m <==> k in order)
    && (forall i, j :: 0 <= i < j < |order| ==> order[i] != order[j])
  }

  // ----- The builder -----

  const AND := " AND "
  const EQ := " = ?"
  const IN := " IN (?)"

  function Condition(column: string, a: Arg): string {
    column + if a.Many? then IN else EQ
  }

  function Qualified(alias: string, key: string): string {
    (if alias == "" then "" else alias + ".") + key
  }

  lemma QualifiedText(alias: string, key: string)
    ensures Qualified(alias, key) == if alias == "" then key else alias + "." + key
  {
    assert "" + key == key;
  }

  method StructToQueries(decoded: Option<Filter>, order: seq<string>, alias: string)
    returns (conds: seq<string>, args: seq<Arg>, err: bool)
    requires decoded.Some? ==> Enumerates(order, decoded.value)
    ensures err <==> decoded.None?
    ensures err ==> conds == [] && args == []
    ensures !err ==> |conds| == |args| == |order|
    ensures !err ==> forall i :: 0 <= i < |order| ==>
              && args[i] == decoded.value[order[i]]
              && conds[i] == Condition(Qualified(alias, order[i]), args[i])
              && conds[i] == (if alias == "" then order[i] else alias + "." + order[i])
                             + if args[i].Many? then " IN (?)" else " = ?"
  {
    conds, args := [], [];
    if decoded.None? {
      return conds, args, true;
    }
    var prefix := alias;
    if prefix != "" {
      prefix := prefix + ".";
    }
    for i := 0 to |order|
      invariant |conds| == |args| == i
      invariant forall j :: 0 <= j < i ==>
                  && args[j] == decoded.value[order[j]]
                  && conds[j] == Condition(Qualified(alias, order[j]), args[j])
    {
      var value := decoded.value[order[i]];
      if value.Many? {
        conds := conds + [prefix + order[i] + " IN (?)"];
      } else {
        conds := conds + [prefix + order[i] + " = ?"];
      }
      args := args + [value];
      assert conds[i] == Condition(Qualified(alias, order[i]), value);
    }
    err := false;
  }

  function Join(parts: seq<string>): string {
    if parts == [] then "" else if |parts| == 1 then parts[0] else parts[0] + AND + Join(parts[1..])
  }

  /** The joined text, spelt out. */
  lemma JoinedText(first: string, second: string, more: seq<string>)
    ensures Join([]) == "" && Join([first]) == first
    ensures Join([first, second] + more) == first + " AND " + Join([second] + more)
  {
    assert ([first, second] + more)[1..] == [second] + more;
  }

  // ----- What the text means -----

  predicate IdentChar(c: char) {
    'a' <= c <= 'z' || 'A' <= c <= 'Z' || '0' <= c <= '9' || c == '_' || c == '.'
  }

  predicate Plain(s: string) {
    s != "" && forall i :: 0 <= i < |s| ==> IdentChar(s[i])
  }

  datatype Atom = Atom(column: string, arg: Arg)

  function IdentLength(s: string): (n: nat)
    ensures n <= |s|
  {
    if s == "" || !IdentChar(s[0]) then 0 else 1 + IdentLength(s[1..])
  }

  /** One comparison at the front of the text, with the argument it takes. The reader
      has its own spelling of the operators, apart from the builder's. */
  function ReadAtom(s: string, a: Arg): (r: Option<(Atom, string)>)
    ensures r.Some? ==> |r.value.1| < |s|
  {
    var n := IdentLength(s);
    if n == 0 then None
    else if " = ?" <= s[n..] && a.One? then Some((Atom(s[..n], a), s[n + 4..]))
    else if " IN (?)" <= s[n..] && a.Many? then Some((Atom(s[..n], a), s[n + 7..]))
    else None
  }

  /** The conjunction the text spells out, if it is well-formed and uses up the
      arguments. */
  function Read(s: string, args: seq<Arg>): Option<seq<Atom>>
    decreases |s|
  {
    if args == [] then None
    else
      var first := ReadAtom(s, args[0]);
      if first.None? then None
      else
        var (atom, rest) := first.value;
        if rest == "" then if |args| == 1 then Some([atom]) else None
        else if " AND " <= rest then
          var more := Read(rest[5..], args[1..]);
          if more.None? then None else Some([atom] + more.value)
        else None
  }

  /** SQL equality: a comparison with NULL is never true. */
  predicate SqlEqual(a: Value, b: Value) {
    !a.Null? && !b.Null? && a == b
  }

  predicate Holds(row: Row, column: string, a: Arg) {
    column in row &&
    match a
    case One(v) => SqlEqual(row[column], v)
    case Many(vs) => exists i :: 0 <= i < |vs| && SqlEqual(row[column], vs[i])
  }

  predicate AllHold(row: Row, atoms: seq<Atom>) {
    forall i :: 0 <= i < |atoms| ==> Holds(row, atoms[i].column, atoms[i].arg)
  }

  /** Every entry of the filter holds of the row. */
  ghost predicate Matches(row: Row, m: Filter, alias: string) {
    forall k :: k in m ==> Holds(row, if alias == "" then k else alias + "." + k, m[k])
  }

  /** A row matches when each named column holds the value or one of the values, and
      NULL is never among them. */
  lemma MatchesMeans(row: Row, m: Filter)
    ensures Matches(row, m, "") <==>
            forall k :: k in m ==>
              && k in row && row[k] != Null
              && (m[k].One? ==> row[k] == m[k].v) && (m[k].Many? ==> row[k] in m[k].vs)
  {
    forall k | k in m
      ensures Holds(row, k, m[k]) <==>
              && k in row && row[k] != Null
              && (m[k].One? ==> row[k] == m[k].v) && (m[k].Many? ==> row[k] in m[k].vs)
    {
    }
  }

  // ----- Reading back what was built -----

  lemma {:induction false} IdentLengthOf(k: string, rest: string)
    requires forall i :: 0 <= i < |k| ==> IdentChar(k[i])
    requires rest == "" || !IdentChar(rest[0])
    ensures IdentLength(k + rest) == |k|
  {
    if k == "" {
      assert k + rest == rest;
    } else {
      assert (k + rest)[1..] == k[1..] + rest;
      IdentLengthOf(k[1..], rest);
    }
  }

  lemma ReadsAtom(column: string, a: Arg, rest: string)
    requires Plain(column) && (rest == "" || AND <= rest)
    ensures ReadAtom(Condition(column, a) + rest, a) == Some((Atom(column, a), rest))
  {
    var op := if a.Many? then IN else EQ;
    var s := Condition(column, a) + rest;
    assert s == column + (op + rest);
    IdentLengthOf(column, op + rest);
    assert s[..|column|] == column && s[|column|..] == op + rest;
    assert (op + rest)[..|op|] == op && (op + rest)[|op|..] == rest;
    assert s[|column| + |op|..] == rest;
    if a.One? {
      assert (op + rest)[1] == '=';
    }
  }

  function Texts(atoms: seq<Atom>): seq<string> {
    seq(|atoms|, i requires 0 <= i < |atoms| => Condition(atoms[i].column, atoms[i].arg))
  }

  function Args(atoms: seq<Atom>): seq<Arg> {
    seq(|atoms|, i requires 0 <= i < |atoms| => atoms[i].arg)
  }

  lemma ReadsConjunction(first: Atom, more: string, args: seq<Arg>, atoms: seq<Atom>)
    requires Plain(first.column) && Read(more, args) == Some(atoms)
    ensures Read(Condition(first.column, first.arg) + (AND + more), [first.arg] + args) == Some([first] + atoms)
  {
    var rest := AND + more;
    assert rest[..|AND|] == AND && rest[|AND|..] == more;
    ReadsAtom(first.column, first.arg, rest);
    assert ([first.arg] + args)[1..] == args;
  }

  lemma ReadsSingle(atom: Atom)
    requires Plain(atom.column)
    ensures Read(Condition(atom.column, atom.arg), [atom.arg]) == Some([atom])
  {
    ReadsAtom(atom.column, atom.arg, "");
    assert Condition(atom.column, atom.arg) + "" == Condition(atom.column, atom.arg);
  }

  lemma JoinOfTexts(atoms: seq<Atom>)
    requires |atoms| >= 2
    ensures Join(Texts(atoms)) == Condition(atoms[0].column, atoms[0].arg) + (AND + Join(Texts(atoms[1..])))
    ensures Args(atoms) == [atoms[0].arg] + Args(atoms[1..])
  {
    assert Texts(atoms)[1..] == Texts(atoms[1..]);
  }

  /** Round trip: joining the texts of comparisons over plain columns and reading
      the result back gives those comparisons. */
  lemma {:induction false} ReadsBack(atoms: seq<Atom>)
    requires atoms != [] && forall i :: 0 <= i < |atoms| ==> Plain(atoms[i].column)
    ensures Read(Join(Texts(atoms)), Args(atoms)) == Some(atoms)
    decreases |atoms|
  {
    if |atoms| == 1 {
      ReadsSingle(atoms[0]);
      assert atoms == [atoms[0]] && Args(atoms) == [atoms[0].arg];
    } else {
      JoinOfTexts(atoms);
      ReadsBack(atoms[1..]);
      ReadsConjunction(atoms[0], Join(Texts(atoms[1..])), Args(atoms[1..]), atoms[1..]);
      assert atoms == [atoms[0]] + atoms[1..];
    }
  }

  /** The comparisons a filter stands for, in iteration order. */
  function AtomsOf(m: Filter, order: seq<string>, alias: string): seq<Atom>
    requires forall k :: k in order ==> k in m
  {
    seq(|order|, i requires 0 <= i < |order| => Atom(Qualified(alias, order[i]), m[order[i]]))
  }

  predicate PlainNames(m: Filter, alias: string) {
    (alias == "" || Plain(alias)) && forall k :: k in m ==> Plain(k)
  }

  lemma PlainQualified(alias: string, key: string)
    requires (alias == "" || Plain(alias)) && Plain(key)
    ensures Plain(Qualified(alias, key))
  {
  }

  /** Whatever the iteration order, all comparisons hold exactly when the filter
      matches. */
  lemma AtomsMeanFilter(m: Filter, order: seq<string>, alias: string, row: Row)
    requires Enumerates(order, m)
    ensures AllHold(row, AtomsOf(m, order, alias)) <==> Matches(row, m, alias)
  {
    var atoms := AtomsOf(m, order, alias);
    if AllHold(row, atoms) {
      forall k | k in m
        ensures Holds(row, if alias == "" then k else alias + "." + k, m[k])
      {
        var i :| 0 <= i < |order| && order[i] == k;
        assert atoms[i] == Atom(Qualified(alias, k), m[k]);
        QualifiedText(alias, k);
      }
    }
    if Matches(row, m, alias) {
      forall i | 0 <= i < |atoms|
        ensures Holds(row, atoms[i].column, atoms[i].arg)
      {
        QualifiedText(alias, order[i]);
        assert order[i] in m;
      }
    }
  }

  /** The clauses of a filter, for any names, and their arguments. */
  function Clauses(m: Filter, order: seq<string>, alias: string): seq<string>
    requires forall k :: k in order ==> k in m
  {
    seq(|order|, i requires 0 <= i < |order| =>
      (if alias == "" then order[i] else alias + "." + order[i]) + if m[order[i]].Many? then " IN (?)" else " = ?")
  }

  /** `StructToConditions`. Building SQL preserves meaning: for every filter with
      plain names and every iteration order, the joined condition, read with its
      positional arguments, holds of a row exactly when the filter matches it.
      The empty filter yields no condition. */
  method StructToConditions(decoded: Option<Filter>, order: seq<string>, alias: string)
    returns (condition: string, args: seq<Arg>, err: bool)
    requires decoded.Some? ==> Enumerates(order, decoded.value)
    ensures err <==> decoded.None?
    ensures err || order == [] ==> condition == "" && args == []
    ensures !err ==> condition == Join(Clauses(decoded.value, order, alias))
    ensures !err ==> |args| == |order| && forall i :: 0 <= i < |order| ==> args[i] == decoded.value[order[i]]
    ensures !err && order != [] && PlainNames(decoded.value, alias) ==>
              && Read(condition, args).Some?
              && forall row: Row :: AllHold(row, Read(condition, args).value) <==> Matches(row, decoded.value, alias)
  {
    var conds;
    conds, args, err := StructToQueries(decoded, order, alias);
    if err || |conds| == 0 {
      return "", [], err;
    }
    assert conds == Clauses(decoded.value, order, alias);
    condition := Join(conds);
    if PlainNames(decoded.value, alias) {
      ghost var atoms := AtomsOf(decoded.value, order, alias);
      assert conds == Texts(atoms) && args == Args(atoms);
      forall i | 0 <= i < |atoms|
        ensures Plain(atoms[i].column)
      {
        PlainQualified(alias, order[i]);
      }
      ReadsBack(atoms);
      forall row: Row
        ensures AllHold(row, Read(condition, args).value) <==> Matches(row, decoded.value, alias)
      {
        AtomsMeanFilter(decoded.value, order, alias, row);
      }
    }
  }

  // ----- Queries and updates -----

  /** A WHERE clause with its arguments, if there is one. */
  type Where = Option<(string, seq<Arg>)>

  /** A page as the caller asks for it. */
  datatype Page = Page(limit: int, offset: int, sortBy: string, orderBy: string)

  datatype Query = Query(where: Where, columns: seq<string>, relations: seq<string>, page: Page)

  predicate Readable(where: Where) {
    where.None? || Read(where.value.0, where.value.1).Some?
  }

  /** No WHERE clause selects every row; one that cannot be read selects nothing. */
  predicate Selects(where: Where, row: Row) {
    where.None? || (Readable(where) && AllHold(row, Read(where.value.0, where.value.1).value))
  }

  /** The WHERE clause of a filter: the empty filter adds none. */
  method Conditions(decoded: Option<Filter>, order: seq<string>, alias: string) returns (where: Where, err: bool)
    requires decoded.Some? ==> Enumerates(order, decoded.value)
    ensures err <==> decoded.None?
    ensures !err ==> (where.None? <==> order == [])
    ensures !err && PlainNames(decoded.value, alias) ==>
              Readable(where) && forall row: Row :: Selects(where, row) <==> Matches(row, decoded.value, alias)
  {
    where := None;
    var condition, args;
    condition, args, err := StructToConditions(decoded, order, alias);
    if !err && |args| > 0 {
      where := Some((condition, args));
    }
  }

  /** `LoadDefault`: a page is never empty for lack of a limit and always ordered. */
  function LoadDefault(p: Page): (r: Page)
    ensures r.limit != 0 && r.sortBy != "" && r.orderBy != "" && r.offset == p.offset
    ensures p.limit != 0 && p.sortBy != "" && p.orderBy != "" ==> r == p
  {
    Page(if p.limit == 0 then 100 else p.limit, p.offset,
         if p.sortBy == "" then "ASC" else p.sortBy,
         if p.orderBy == "" then "id" else p.orderBy)
  }

  /** `BuildQueryConditions` on a fresh query: the alias is used only when relations
      are joined, the empty filter adds no condition, and what the page leaves open
      becomes a hundred rows in ascending order of `id`. */
  method BuildQueryConditions(decoded: Option<Filter>, order: seq<string>, alias: string,
                              selectors: seq<string>, paging: Page, relations: seq<string>)
    returns (q: Query, err: bool)
    requires decoded.Some? ==> Enumerates(order, decoded.value)
    ensures err <==> decoded.None?
    ensures !err ==> q.columns == selectors && q.relations == relations
    ensures !err ==> q.page.limit == (if paging.limit == 0 then 100 else paging.limit) && q.page.offset == paging.offset
    ensures !err ==> q.page.sortBy == (if paging.sortBy == "" then "ASC" else paging.sortBy)
    ensures !err ==> q.page.orderBy == (if paging.orderBy == "" then "id" else paging.orderBy)
    ensures var used := if relations == [] then "" else alias;
            !err && PlainNames(decoded.value, used) ==>
              forall row: Row :: Selects(q.where, row) <==> Matches(row, decoded.value, used)
  {
    var used := "";
    if |relations| > 0 {
      used := alias;
    }
    var page := LoadDefault(paging);
    q := Query(None, [], [], page);
    var where;
    where, err := Conditions(decoded, order, used);
    if !err {
      q := Query(where, selectors, relations, page);
    }
  }

  /** A SET clause must be an assignment; `IN (?)` is not one. */
  function ReadAssignment(clause: string, a: Arg): Option<(string, Value)> {
    var n := IdentLength(clause);
    if n > 0 && clause[n..] == " = ?" && a.One? then Some((clause[..n], a.v)) else None
  }

  /** The row after the assignments of an update, in order. */
  function Assigned(row: Row, clauses: seq<string>, args: seq<Arg>): Option<Row>
    requires |clauses| == |args|
    decreases |clauses|
  {
    if clauses == [] then Some(row)
    else
      var n := |clauses| - 1;
      var before := Assigned(row, clauses[..n], args[..n]);
      var set' := ReadAssignment(clauses[n], args[n]);
      if before.None? || set'.None? then None
      else Some(before.value[set'.value.0 := set'.value.1])
  }

  lemma ReadsAssignment(key: string, a: Arg)
    requires Plain(key)
    ensures ReadAssignment(Condition(key, a), a) == if a.One? then Some((key, a.v)) else None
  {
    var op := if a.Many? then IN else EQ;
    IdentLengthOf(key, op);
    assert Condition(key, a)[..|key|] == key && Condition(key, a)[|key|..] == op;
  }

  /** The scalar entries of `m` under the given keys. */
  function Scalars(m: Filter, keys: seq<string>): Row {
    map k | k in keys && k in m && m[k].One? :: m[k].v
  }

  /** The clauses assign the entries of `m` named by `order`, slices excepted. */
  ghost predicate Assigns(clauses: seq<string>, args: seq<Arg>, m: Filter, order: seq<string>) {
    && |clauses| == |args| == |order|
    && forall i :: 0 <= i < |order| ==>
         && order[i] in m
         && ReadAssignment(clauses[i], args[i]) ==
            if m[order[i]].One? then Some((order[i], m[order[i]].v)) else None
  }

  lemma ScalarsExtend(row: Row, m: Filter, order: seq<string>, n: nat)
    requires |order| == n + 1 && order[n] in m && m[order[n]].One?
    ensures row + Scalars(m, order) == (row + Scalars(m, order[..n]))[order[n] := m[order[n]].v]
  {
    assert forall k :: k in order <==> k in order[..n] || k == order[n];
  }

  lemma {:induction false} ScalarsAssigned(row: Row, m: Filter, order: seq<string>, clauses: seq<string>,
                                           args: seq<Arg>)
    requires Assigns(clauses, args, m, order)
    requires forall i :: 0 <= i < |order| ==> m[order[i]].One?
    ensures Assigned(row, clauses, args) == Some(row + Scalars(m, order))
    decreases |order|
  {
    if order == [] {
      assert row + Scalars(m, order) == row;
    } else {
      var n := |order| - 1;
      ScalarsAssigned(row, m, order[..n], clauses[..n], args[..n]);
      ScalarsExtend(row, m, order, n);
    }
  }

  lemma {:induction false} SliceUnassigned(row: Row, m: Filter, order: seq<string>, clauses: seq<string>,
                                           args: seq<Arg>, i: nat)
    requires Assigns(clauses, args, m, order) && i < |order| && m[order[i]].Many?
    ensures Assigned(row, clauses, args).None?
    decreases |order|
  {
    var n := |order| - 1;
    if i < n {
      SliceUnassigned(row, m, order[..n], clauses[..n], args[..n], i);
    }
  }

  /** No value to be set is a slice. */
  ghost predicate AllScalar(m: Filter) {
    forall k :: k in m ==> m[k].One?
  }

  lemma AssignedMeans(row: Row, m: Filter, order: seq<string>, clauses: seq<string>, args: seq<Arg>)
    requires Assigns(clauses, args, m, order) && Enumerates(order, m)
    ensures Assigned(row, clauses, args) == if AllScalar(m) then Some(row + Scalars(m, order)) else None
  {
    if AllScalar(m) {
      ScalarsAssigned(row, m, order, clauses, args);
    } else {
      var k :| k in m && !m[k].One?;
      var i :| 0 <= i < |order| && order[i] == k;
      SliceUnassigned(row, m, order, clauses, args, i);
    }
  }

  lemma {:induction false} AssignableAnywhere(row: Row, other: Row, clauses: seq<string>, args: seq<Arg>)
    requires |clauses| == |args|
    ensures Assigned(row, clauses, args).Some? <==> Assigned(other, clauses, args).Some?
    decreases |clauses|
  {
    if clauses != [] {
      var n := |clauses| - 1;
      AssignableAnywhere(row, other, clauses[..n], args[..n]);
    }
  }

  /** The SET clauses of an update, `StructToQueries` without an alias. */
  method SetClauses(data: Option<Filter>, order: seq<string>) returns (sets: seq<string>, args: seq<Arg>, err: bool)
    requires data.Some? ==> Enumerates(order, data.value)
    ensures err <==> data.None?
    ensures !err ==> |sets| == |args| == |order|
    ensures !err && PlainNames(data.value, "") ==> Assigns(sets, args, data.value, order)
  {
    sets, args, err := StructToQueries(data, order, "");
    if !err && PlainNames(data.value, "") {
      forall i | 0 <= i < |order|
        ensures order[i] in data.value
        ensures ReadAssignment(sets[i], args[i]) ==
                if data.value[order[i]].One? then Some((order[i], data.value[order[i]].v)) else None
      {
        assert order[i] in data.value && Qualified("", order[i]) == order[i];
        ReadsAssignment(order[i], args[i]);
      }
    }
  }

  /** Running the update: rows the clause selects get the assignments. */
  method Execute(where: Where, sets: seq<string>, args: seq<Arg>, table: seq<Row>) returns (after: seq<Row>)
    requires |sets| == |args| && forall row: Row :: Assigned(row, sets, args).Some?
    ensures |after| == |table|
    ensures forall i :: 0 <= i < |table| ==>
              after[i] == if Selects(where, table[i]) then Assigned(table[i], sets, args).value else table[i]
  {
    after := [];
    for i := 0 to |table|
      invariant |after| == i
      invariant forall j :: 0 <= j < i ==>
                  after[j] == if Selects(where, table[j]) then Assigned(table[j], sets, args).value else table[j]
    {
      after := after + [if Selects(where, table[i]) then Assigned(table[i], sets, args).value else table[i]];
    }
  }

  /** `UpdateBy` on a table. Without data nothing is sent. With data under plain names
      the statement is valid exactly when no value is a slice, and then sets the
      named columns of the matching rows, and those only, whatever the two
      iteration orders. A statement that is not valid changes nothing. */
  method UpdateBy(filter: Option<Filter>, filterOrder: seq<string>, data: Option<Filter>, dataOrder: seq<string>,
                  table: seq<Row>)
    returns (after: seq<Row>, ok: bool)
    requires filter.Some? ==> Enumerates(filterOrder, filter.value)
    requires data.Some? ==> Enumerates(dataOrder, data.value)
    ensures data.None? ==> !ok
    ensures data.Some? && dataOrder == [] ==> ok
    ensures !ok || dataOrder == [] ==> after == table
    ensures |after| == |table|
    ensures data.Some? && dataOrder != [] && filter.None? ==> !ok
    ensures data.Some? && dataOrder != [] && PlainNames(data.value, "") && !AllScalar(data.value) ==> !ok
    ensures (&& data.Some? && dataOrder != [] && PlainNames(data.value, "")
             && filter.Some? && PlainNames(filter.value, "")) ==>
              && (ok <==> AllScalar(data.value))
              && (ok ==> forall i :: 0 <= i < |table| ==>
                    after[i] == if Matches(table[i], filter.value, "") then table[i] + Scalars(data.value, dataOrder)
                                else table[i])
  {
    after := table;
    var sets, setArgs, err := SetClauses(data, dataOrder);
    if err {
      return after, false;
    }
    if |sets| == 0 {
      return after, true;
    }
    var where;
    where, err := Conditions(filter, filterOrder, "");
    if err {
      return after, false;
    }
    forall row: Row
      ensures Assigned(row, sets, setArgs).Some? <==> Assigned(map[], sets, setArgs).Some?
      ensures PlainNames(data.value, "") ==>
                Assigned(row, sets, setArgs) ==
                if AllScalar(data.value) then Some(row + Scalars(data.value, dataOrder)) else None
    {
      AssignableAnywhere(row, map[], sets, setArgs);
      if PlainNames(data.value, "") {
        AssignedMeans(row, data.value, dataOrder, sets, setArgs);
      }
    }
    ok := Readable(where) && Assigned(map[], sets, setArgs).Some?;
    if ok {
      after := Execute(where, sets, setArgs, table);
    }
  }
}
