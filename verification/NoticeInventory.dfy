/**
 The dependency inventory behind the notice (scripts/ci/generate_native_dependency_notice.py):
 reading one distribution root's cargo-about result. The digest is any function; a collision is an
 error, not an assumption.
 */
module NoticeInventory {
  import opened Prelude
  import opened Spdx
  import opened SpdxSatisfaction

  datatype PackageKey = PackageKey(name: string, version: string, source: string)

  datatype Crate = Crate(key: PackageKey, id: string, expression: string)

  datatype LicenseRow = LicenseRow(license: string, text: string, usedBy: seq<string>)

  datatype Payload = Payload(crates: seq<Crate>, licenses: seq<LicenseRow>)

  datatype Record = Record(expression: string, roots: set<string>, texts: set<TextKey>)

  type Packages = map<PackageKey, Record>
  type Texts = map<TextKey, string>
  type Digest = string -> string
  type Parser = string -> Option<Node>

  datatype Rejection =
    | BadExpression | RepeatedPackage | RepeatedId | UnacceptedLicense | BadText | Collision
    | OrphanText | UnknownPackage | NoText | MissingRoot | Disagreement | Unsatisfied | StalePolicy

  /** Harvested text ends in exactly the line feed it had, or one added. */
  function Normalize(text: string): string {
    if text != [] && text[|text| - 1] == '\n' then text else text + "\n"
  }

  predicate TextOk(text: string) {
    text != [] && '\0' !in text
  }

  function KeyOf(row: LicenseRow, digest: Digest): TextKey {
    TextKey(row.license, digest(Normalize(row.text)))
  }

  // ---------------------------------------------------------------------------------------
  // One root: reading
  // ---------------------------------------------------------------------------------------

  datatype Crates = Crates(packages: Packages, ids: map<string, PackageKey>)

  function ReadCrates(crates: seq<Crate>, root: string, parse: Parser): Result<Crates, Rejection> {
    if crates == [] then Ok(Crates(map[], map[]))
    else
      var front := ReadCrates(crates[..|crates| - 1], root, parse);
      var c := crates[|crates| - 1];
      if front.Err? then front
      else if parse(c.expression).None? then Err(BadExpression)
      else if c.key in front.value.packages then Err(RepeatedPackage)
      else if c.id in front.value.ids then Err(RepeatedId)
      else Ok(Crates(front.value.packages[c.key := Record(c.expression, {root}, {})],
                     front.value.ids[c.id := c.key]))
  }

  function AddText(packages: Packages, k: PackageKey, t: TextKey): Packages
    requires k in packages
  {
    packages[k := packages[k].(texts := packages[k].texts + {t})]
  }

  /** Note on every user of a text that it uses it. */
  function AddUses(packages: Packages, ids: map<string, PackageKey>, users: seq<string>, t: TextKey)
    : (r: Result<Packages, Rejection>)
    requires forall u :: u in ids ==> ids[u] in packages
    ensures r.Ok? ==> r.value.Keys == packages.Keys
  {
    if users == [] then Ok(packages)
    else
      var front := AddUses(packages, ids, users[..|users| - 1], t);
      var u := users[|users| - 1];
      if front.Err? then front
      else if u !in ids then Err(UnknownPackage)
      else Ok(AddText(front.value, ids[u], t))
  }

  datatype Inventory = Inventory(packages: Packages, texts: Texts)

  function AddRow(inv: Inventory, ids: map<string, PackageKey>, row: LicenseRow, allowed: set<string>, digest: Digest)
    : (r: Result<Inventory, Rejection>)
    requires forall u :: u in ids ==> ids[u] in inv.packages
    ensures r.Ok? ==> r.value.packages.Keys == inv.packages.Keys
  {
    if row.license !in allowed then Err(UnacceptedLicense)
    else if !TextOk(row.text) then Err(BadText)
    else
      var t := KeyOf(row, digest);
      if t in inv.texts && inv.texts[t] != Normalize(row.text) then Err(Collision)
      else if row.usedBy == [] then Err(OrphanText)
      else
        var used := AddUses(inv.packages, ids, row.usedBy, t);
        if used.Err? then Err(used.error)
        else Ok(Inventory(used.value, inv.texts[t := Normalize(row.text)]))
  }

  function AddRows(start: Packages, ids: map<string, PackageKey>, rows: seq<LicenseRow>, allowed: set<string>, digest: Digest)
    : (r: Result<Inventory, Rejection>)
    requires forall u :: u in ids ==> ids[u] in start
    ensures r.Ok? ==> r.value.packages.Keys == start.Keys
  {
    if rows == [] then Ok(Inventory(start, map[]))
    else
      var front := AddRows(start, ids, rows[..|rows| - 1], allowed, digest);
      if front.Err? then front else AddRow(front.value, ids, rows[|rows| - 1], allowed, digest)
  }

  lemma {:induction false} IdsKnown(crates: seq<Crate>, root: string, parse: Parser)
    requires ReadCrates(crates, root, parse).Ok?
    ensures forall u :: u in ReadCrates(crates, root, parse).value.ids ==>
              ReadCrates(crates, root, parse).value.ids[u] in ReadCrates(crates, root, parse).value.packages
  {
    if crates != [] {
      IdsKnown(crates[..|crates| - 1], root, parse);
    }
  }

  /** Everything read without complaint, before the last check. */
  function ReadAll(p: Payload, root: string, parse: Parser, allowed: set<string>, digest: Digest): Result<Inventory, Rejection> {
    var crates := ReadCrates(p.crates, root, parse);
    if crates.Err? then Err(crates.error)
    else
      IdsKnown(p.crates, root, parse);
      AddRows(crates.value.packages, crates.value.ids, p.licenses, allowed, digest)
  }

  function ReadPayload(p: Payload, root: string, parse: Parser, allowed: set<string>, digest: Digest): Result<Inventory, Rejection> {
    var inv := ReadAll(p, root, parse, allowed, digest);
    Checked(inv)
  }

  /** A package without a text is rejected at the end. */
  function Checked(inv: Result<Inventory, Rejection>): Result<Inventory, Rejection> {
    if inv.Ok? && exists k :: k in inv.value.packages && inv.value.packages[k].texts == {} then Err(NoText)
    else inv
  }

  method ParsePayload(p: Payload, root: string, parse: Parser, allowed: set<string>, digest: Digest)
    returns (r: Result<Inventory, Rejection>)
    ensures r == ReadPayload(p, root, parse, allowed, digest)
  {
    var crates := ParseCrates(p.crates, root, parse);
    if crates.Err? {
      return Err(crates.error);
    }
    IdsKnown(p.crates, root, parse);
    var inv := ParseRows(crates.value.packages, crates.value.ids, p.licenses, allowed, digest);
    if inv.Err? {
      return inv;
    }
    var packages := inv.value.packages;
    var todo := packages.Keys;
    while todo != {}
      invariant todo <= packages.Keys
      invariant forall k :: k in packages && k !in todo ==> packages[k].texts != {}
      decreases todo
    {
      var k :| k in todo;
      if packages[k].texts == {} {
        return Err(NoText);
      }
      todo := todo - {k};
    }
    return inv;
  }

  method ParseCrates(crates: seq<Crate>, root: string, parse: Parser) returns (r: Result<Crates, Rejection>)
    ensures r == ReadCrates(crates, root, parse)
  {
    var packages: Packages := map[];
    var ids: map<string, PackageKey> := map[];
    for n := 0 to |crates|
      invariant ReadCrates(crates[..n], root, parse) == Ok(Crates(packages, ids))
    {
      var c := crates[n];
      assert crates[..n + 1][..n] == crates[..n];
      if parse(c.expression).None? {
        ReadCratesStops(crates, n + 1, root, parse);
        return Err(BadExpression);
      }
      if c.key in packages {
        ReadCratesStops(crates, n + 1, root, parse);
        return Err(RepeatedPackage);
      }
      packages := packages[c.key := Record(c.expression, {root}, {})];
      if c.id in ids {
        ReadCratesStops(crates, n + 1, root, parse);
        return Err(RepeatedId);
      }
      ids := ids[c.id := c.key];
    }
    assert crates[..|crates|] == crates;
    return Ok(Crates(packages, ids));
  }

  method ParseRows(start: Packages, ids: map<string, PackageKey>, rows: seq<LicenseRow>, allowed: set<string>, digest: Digest)
    returns (r: Result<Inventory, Rejection>)
    requires forall u :: u in ids ==> ids[u] in start
    ensures r == AddRows(start, ids, rows, allowed, digest)
  {
    var inv := Inventory(start, map[]);
    for n := 0 to |rows|
      invariant AddRows(start, ids, rows[..n], allowed, digest) == Ok(inv)
    {
      assert rows[..n + 1][..n] == rows[..n];
      var added := ParseRow(inv, ids, rows[n], allowed, digest);
      if added.Err? {
        AddRowsStops(start, ids, rows, n + 1, allowed, digest);
        return added;
      }
      inv := added.value;
    }
    assert rows[..|rows|] == rows;
    return Ok(inv);
  }

  method ParseRow(inv: Inventory, ids: map<string, PackageKey>, row: LicenseRow, allowed: set<string>, digest: Digest)
    returns (r: Result<Inventory, Rejection>)
    requires forall u :: u in ids ==> ids[u] in inv.packages
    ensures r == AddRow(inv, ids, row, allowed, digest)
  {
    if row.license !in allowed {
      return Err(UnacceptedLicense);
    }
    if row.text == [] || '\0' in row.text {
      return Err(BadText);
    }
    var t := KeyOf(row, digest);
    if t in inv.texts && inv.texts[t] != Normalize(row.text) {
      return Err(Collision);
    }
    if row.usedBy == [] {
      return Err(OrphanText);
    }
    var used := RecordUses(inv.packages, ids, row.usedBy, t);
    if used.Err? {
      return Err(used.error);
    }
    return Ok(Inventory(used.value, inv.texts[t := Normalize(row.text)]));
  }

  method RecordUses(start: Packages, ids: map<string, PackageKey>, users: seq<string>, t: TextKey)
    returns (r: Result<Packages, Rejection>)
    requires forall u :: u in ids ==> ids[u] in start
    ensures r == AddUses(start, ids, users, t)
  {
    var packages := start;
    for n := 0 to |users|
      invariant packages.Keys == start.Keys
      invariant AddUses(start, ids, users[..n], t) == Ok(packages)
    {
      assert users[..n + 1][..n] == users[..n];
      if users[n] !in ids {
        AddUsesStops(start, ids, users, n + 1, t);
        return Err(UnknownPackage);
      }
      packages := AddText(packages, ids[users[n]], t);
    }
    assert users[..|users|] == users;
    return Ok(packages);
  }

  lemma {:induction false} ReadCratesStops(crates: seq<Crate>, n: nat, root: string, parse: Parser)
    requires n <= |crates| && ReadCrates(crates[..n], root, parse).Err?
    ensures ReadCrates(crates, root, parse) == ReadCrates(crates[..n], root, parse)
    decreases |crates| - n
  {
    if n < |crates| {
      assert crates[..n + 1][..n] == crates[..n];
      ReadCratesStops(crates, n + 1, root, parse);
    } else {
      assert crates[..n] == crates;
    }
  }

  lemma {:induction false} AddRowsStops(
    start: Packages, ids: map<string, PackageKey>, rows: seq<LicenseRow>, n: nat, allowed: set<string>, digest: Digest)
    requires forall u :: u in ids ==> ids[u] in start
    requires n <= |rows| && AddRows(start, ids, rows[..n], allowed, digest).Err?
    ensures AddRows(start, ids, rows, allowed, digest) == AddRows(start, ids, rows[..n], allowed, digest)
    decreases |rows| - n
  {
    if n < |rows| {
      assert rows[..n + 1][..n] == rows[..n];
      AddRowsStops(start, ids, rows, n + 1, allowed, digest);
    } else {
      assert rows[..n] == rows;
    }
  }

  lemma {:induction false} AddUsesStops(
    packages: Packages, ids: map<string, PackageKey>, users: seq<string>, n: nat, t: TextKey)
    requires forall u :: u in ids ==> ids[u] in packages
    requires n <= |users| && AddUses(packages, ids, users[..n], t).Err?
    ensures AddUses(packages, ids, users, t) == AddUses(packages, ids, users[..n], t)
    decreases |users| - n
  {
    if n < |users| {
      assert users[..n + 1][..n] == users[..n];
      AddUsesStops(packages, ids, users, n + 1, t);
    } else {
      assert users[..n] == users;
    }
  }

  // ---------------------------------------------------------------------------------------
  // One root: exactly when it is accepted, and exactly what is read
  // ---------------------------------------------------------------------------------------

  ghost predicate CratesOk(crates: seq<Crate>, parse: Parser) {
    && (forall i :: 0 <= i < |crates| ==> parse(crates[i].expression).Some?)
    && (forall i, j :: 0 <= i < j < |crates| ==> crates[i].key != crates[j].key && crates[i].id != crates[j].id)
  }

  function Keys(crates: seq<Crate>): set<PackageKey> {
    set i | 0 <= i < |crates| :: crates[i].key
  }

  function Ids(crates: seq<Crate>): set<string> {
    set i | 0 <= i < |crates| :: crates[i].id
  }

  lemma KeysStep(crates: seq<Crate>)
    requires crates != []
    ensures Keys(crates) == Keys(crates[..|crates| - 1]) + {crates[|crates| - 1].key}
    ensures Ids(crates) == Ids(crates[..|crates| - 1]) + {crates[|crates| - 1].id}
  {
    var front := crates[..|crates| - 1];
    forall i | 0 <= i < |front| ensures front[i].key in Keys(crates) && front[i].id in Ids(crates) {
      assert crates[i] == front[i];
    }
    forall i | 0 <= i < |crates|
      ensures crates[i].key in Keys(front) + {crates[|crates| - 1].key}
      ensures crates[i].id in Ids(front) + {crates[|crates| - 1].id}
    {
      if i < |front| { assert crates[i] == front[i]; }
    }
  }

  lemma {:induction false} CratesRead(crates: seq<Crate>, root: string, parse: Parser)
    ensures ReadCrates(crates, root, parse).Ok? <==> CratesOk(crates, parse)
    ensures ReadCrates(crates, root, parse).Ok? ==>
              var r := ReadCrates(crates, root, parse).value; r.packages.Keys == Keys(crates) && r.ids.Keys == Ids(crates)
  {
    if crates != [] {
      var front := crates[..|crates| - 1];
      CratesRead(front, root, parse);
      KeysStep(crates);
      CratesOkStep(crates, parse);
    }
  }

  lemma CratesOkStep(crates: seq<Crate>, parse: Parser)
    requires crates != []
    ensures var front, c := crates[..|crates| - 1], crates[|crates| - 1];
            CratesOk(crates, parse) <==>
            CratesOk(front, parse) && parse(c.expression).Some? && c.key !in Keys(front) && c.id !in Ids(front)
  {
    var n := |crates| - 1;
    var front, c := crates[..n], crates[n];
    if CratesOk(crates, parse) {
      CratesOkShrinks(crates, parse);
    }
    if CratesOk(front, parse) && parse(c.expression).Some? && c.key !in Keys(front) && c.id !in Ids(front) {
      CratesOkGrows(front, c, parse);
      assert crates == front + [c];
    }
  }

  lemma CratesOkShrinks(crates: seq<Crate>, parse: Parser)
    requires crates != [] && CratesOk(crates, parse)
    ensures var front, c := crates[..|crates| - 1], crates[|crates| - 1];
            CratesOk(front, parse) && parse(c.expression).Some? && c.key !in Keys(front) && c.id !in Ids(front)
  {
    var n := |crates| - 1;
    forall k | k in Keys(crates[..n]) ensures k != crates[n].key {
      var i :| 0 <= i < n && crates[..n][i].key == k;
      assert crates[i].key != crates[n].key;
    }
    forall u | u in Ids(crates[..n]) ensures u != crates[n].id {
      var i :| 0 <= i < n && crates[..n][i].id == u;
      assert crates[i].id != crates[n].id;
    }
  }

  lemma CratesOkGrows(front: seq<Crate>, c: Crate, parse: Parser)
    requires CratesOk(front, parse) && parse(c.expression).Some? && c.key !in Keys(front) && c.id !in Ids(front)
    ensures CratesOk(front + [c], parse)
  {
    var crates := front + [c];
    forall i, j | 0 <= i < j < |crates| ensures crates[i].key != crates[j].key && crates[i].id != crates[j].id {
      if j == |front| {
        assert front[i].key in Keys(front) && front[i].id in Ids(front);
      } else {
        assert crates[i] == front[i] && crates[j] == front[j];
      }
    }
  }

  /** What was read for one crate. */
  lemma {:induction false} CrateReadAs(crates: seq<Crate>, root: string, parse: Parser, i: nat)
    requires i < |crates| && ReadCrates(crates, root, parse).Ok?
    ensures var r := ReadCrates(crates, root, parse).value;
            && crates[i].id in r.ids && r.ids[crates[i].id] == crates[i].key
            && crates[i].key in r.packages && r.packages[crates[i].key] == Record(crates[i].expression, {root}, {})
  {
    var n := |crates| - 1;
    var front := crates[..n];
    if i < n {
      assert front[i] == crates[i];
      CrateReadAs(front, root, parse, i);
    }
  }

  /** Adding uses of a text: who gets it, and that nothing else changes. */
  lemma {:induction false} AddUsesIs(
    packages: Packages, ids: map<string, PackageKey>, users: seq<string>, t: TextKey, k: PackageKey)
    requires forall u :: u in ids ==> ids[u] in packages
    requires AddUses(packages, ids, users, t).Ok? && k in packages
    ensures var after := AddUses(packages, ids, users, t).value;
            after[k] == packages[k].(texts := packages[k].texts
              + if exists u :: u in users && u in ids && ids[u] == k then {t} else {})
  {
    if users != [] {
      var front, u := users[..|users| - 1], users[|users| - 1];
      AddUsesIs(packages, ids, front, t, k);
      assert users == front + [u];
    }
  }

  lemma {:induction false} AddUsesOk(packages: Packages, ids: map<string, PackageKey>, users: seq<string>, t: TextKey)
    requires forall u :: u in ids ==> ids[u] in packages
    ensures AddUses(packages, ids, users, t).Ok? <==> forall u :: u in users ==> u in ids
  {
    if users != [] {
      AddUsesOk(packages, ids, users[..|users| - 1], t);
      assert users == users[..|users| - 1] + [users[|users| - 1]];
    }
  }

  ghost predicate RowOk(row: LicenseRow, ids: set<string>, allowed: set<string>) {
    && row.license in allowed && TextOk(row.text) && row.usedBy != []
    && forall u :: u in row.usedBy ==> u in ids
  }

  ghost predicate RowsOk(rows: seq<LicenseRow>, ids: set<string>, allowed: set<string>, digest: Digest) {
    && (forall i :: 0 <= i < |rows| ==> RowOk(rows[i], ids, allowed))
    && (forall i, j :: 0 <= i < j < |rows| && KeyOf(rows[i], digest) == KeyOf(rows[j], digest) ==>
          Normalize(rows[i].text) == Normalize(rows[j].text))
  }

  function TextKeys(rows: seq<LicenseRow>, digest: Digest): set<TextKey> {
    set i | 0 <= i < |rows| :: KeyOf(rows[i], digest)
  }

  /** The texts the rows select for the package with this id. */
  function TextsFor(rows: seq<LicenseRow>, id: string, digest: Digest): set<TextKey> {
    set i | 0 <= i < |rows| && id in rows[i].usedBy :: KeyOf(rows[i], digest)
  }

  lemma TextKeysStep(rows: seq<LicenseRow>, id: string, digest: Digest)
    requires rows != []
    ensures var front, row := rows[..|rows| - 1], rows[|rows| - 1];
            && TextKeys(rows, digest) == TextKeys(front, digest) + {KeyOf(row, digest)}
            && TextsFor(rows, id, digest) ==
               TextsFor(front, id, digest) + if id in row.usedBy then {KeyOf(row, digest)} else {}
  {
    TextKeysSnoc(rows, digest);
    TextsForSnoc(rows, id, digest);
  }

  lemma TextKeysSnoc(rows: seq<LicenseRow>, digest: Digest)
    requires rows != []
    ensures TextKeys(rows, digest) == TextKeys(rows[..|rows| - 1], digest) + {KeyOf(rows[|rows| - 1], digest)}
  {
    var n := |rows| - 1;
    var front := rows[..n];
    forall t | t in TextKeys(rows, digest) ensures t in TextKeys(front, digest) + {KeyOf(rows[n], digest)} {
      var i :| 0 <= i < |rows| && t == KeyOf(rows[i], digest);
      if i < n { assert front[i] == rows[i]; }
    }
    forall t | t in TextKeys(front, digest) ensures t in TextKeys(rows, digest) {
      var i :| 0 <= i < n && t == KeyOf(front[i], digest);
      assert rows[i] == front[i];
    }
  }

  lemma TextsForSnoc(rows: seq<LicenseRow>, id: string, digest: Digest)
    requires rows != []
    ensures var front, row := rows[..|rows| - 1], rows[|rows| - 1];
            TextsFor(rows, id, digest) == TextsFor(front, id, digest) + if id in row.usedBy then {KeyOf(row, digest)} else {}
  {
    forall t ensures t in TextsFor(rows, id, digest) <==>
                     t in TextsFor(rows[..|rows| - 1], id, digest)
                     || (id in rows[|rows| - 1].usedBy && t == KeyOf(rows[|rows| - 1], digest))
    {
      TextsForAt(rows, id, digest, t);
    }
  }

  lemma TextsForAt(rows: seq<LicenseRow>, id: string, digest: Digest, t: TextKey)
    requires rows != []
    ensures t in TextsFor(rows, id, digest) <==>
            t in TextsFor(rows[..|rows| - 1], id, digest)
            || (id in rows[|rows| - 1].usedBy && t == KeyOf(rows[|rows| - 1], digest))
  {
    var n := |rows| - 1;
    var front := rows[..n];
    if t in TextsFor(rows, id, digest) {
      var i :| 0 <= i < |rows| && id in rows[i].usedBy && t == KeyOf(rows[i], digest);
      if i < n { assert front[i] == rows[i]; }
    }
    if t in TextsFor(front, id, digest) {
      var i :| 0 <= i < n && id in front[i].usedBy && t == KeyOf(front[i], digest);
      assert rows[i] == front[i];
    }
  }

  lemma AddRowTexts(inv: Inventory, ids: map<string, PackageKey>, row: LicenseRow, allowed: set<string>, digest: Digest)
    requires forall u :: u in ids ==> ids[u] in inv.packages
    requires AddRow(inv, ids, row, allowed, digest).Ok?
    ensures var t := KeyOf(row, digest);
            && AddRow(inv, ids, row, allowed, digest).value.texts == inv.texts[t := Normalize(row.text)]
            && (t in inv.texts ==> inv.texts[t] == Normalize(row.text))
  {
  }

  lemma TextsGrow(rows: seq<LicenseRow>, digest: Digest, before: Texts)
    requires rows != []
    requires var front, row := rows[..|rows| - 1], rows[|rows| - 1];
             && TextsOf(front, digest, before)
             && (KeyOf(row, digest) in before ==> before[KeyOf(row, digest)] == Normalize(row.text))
    ensures var row := rows[|rows| - 1];
            TextsOf(rows, digest, before[KeyOf(row, digest) := Normalize(row.text)])
  {
    var n := |rows| - 1;
    TextKeysStep(rows, "", digest);
    forall i | 0 <= i < |rows|
      ensures var texts := before[KeyOf(rows[n], digest) := Normalize(rows[n].text)];
              KeyOf(rows[i], digest) in texts && texts[KeyOf(rows[i], digest)] == Normalize(rows[i].text)
    {
      if i < n { assert rows[..n][i] == rows[i]; }
    }
  }

  ghost predicate TextsOf(rows: seq<LicenseRow>, digest: Digest, texts: Texts) {
    && texts.Keys == TextKeys(rows, digest)
    && forall i :: 0 <= i < |rows| ==>
         KeyOf(rows[i], digest) in texts && texts[KeyOf(rows[i], digest)] == Normalize(rows[i].text)
  }

  /** The texts table after reading rows: their keys, each with its normalized text. */
  lemma {:induction false} RowTexts(
    start: Packages, ids: map<string, PackageKey>, rows: seq<LicenseRow>, allowed: set<string>, digest: Digest)
    requires forall u :: u in ids ==> ids[u] in start
    requires AddRows(start, ids, rows, allowed, digest).Ok?
    ensures TextsOf(rows, digest, AddRows(start, ids, rows, allowed, digest).value.texts)
  {
    if rows != [] {
      var n := |rows| - 1;
      RowTexts(start, ids, rows[..n], allowed, digest);
      var before := AddRows(start, ids, rows[..n], allowed, digest).value;
      AddRowTexts(before, ids, rows[n], allowed, digest);
      TextsGrow(rows, digest, before.texts);
    }
  }

  /** One row is taken exactly when it is proper and its text agrees with what its key already holds. */
  lemma RowRead(inv: Inventory, ids: map<string, PackageKey>, row: LicenseRow, allowed: set<string>, digest: Digest)
    requires forall u :: u in ids ==> ids[u] in inv.packages
    ensures AddRow(inv, ids, row, allowed, digest).Ok? <==>
            && RowOk(row, ids.Keys, allowed)
            && (KeyOf(row, digest) in inv.texts ==> inv.texts[KeyOf(row, digest)] == Normalize(row.text))
  {
    AddUsesOk(inv.packages, ids, row.usedBy, KeyOf(row, digest));
  }

  lemma RowsOkFront(rows: seq<LicenseRow>, ids: set<string>, allowed: set<string>, digest: Digest)
    requires rows != [] && RowsOk(rows, ids, allowed, digest)
    ensures RowsOk(rows[..|rows| - 1], ids, allowed, digest)
  {
    var front := rows[..|rows| - 1];
    forall i | 0 <= i < |front| ensures RowOk(front[i], ids, allowed) {
      assert front[i] == rows[i];
    }
    forall i, j | 0 <= i < j < |front| && KeyOf(front[i], digest) == KeyOf(front[j], digest)
      ensures Normalize(front[i].text) == Normalize(front[j].text)
    {
      assert front[i] == rows[i] && front[j] == rows[j];
    }
  }

  lemma {:induction false} RowsRead(
    start: Packages, ids: map<string, PackageKey>, rows: seq<LicenseRow>, allowed: set<string>, digest: Digest)
    requires forall u :: u in ids ==> ids[u] in start
    ensures AddRows(start, ids, rows, allowed, digest).Ok? <==> RowsOk(rows, ids.Keys, allowed, digest)
  {
    if rows != [] {
      var n := |rows| - 1;
      RowsRead(start, ids, rows[..n], allowed, digest);
      var before := AddRows(start, ids, rows[..n], allowed, digest);
      if RowsOk(rows, ids.Keys, allowed, digest) {
        RowsOkFront(rows, ids.Keys, allowed, digest);
      }
      if before.Ok? {
        RowTexts(start, ids, rows[..n], allowed, digest);
        RowRead(before.value, ids, rows[n], allowed, digest);
        RowsOkStep(rows, ids.Keys, allowed, digest, before.value.texts);
      }
    }
  }

  lemma RowsOkStep(rows: seq<LicenseRow>, ids: set<string>, allowed: set<string>, digest: Digest, texts: Texts)
    requires rows != []
    requires var front := rows[..|rows| - 1];
             RowsOk(front, ids, allowed, digest) && TextsOf(front, digest, texts)
    ensures var row := rows[|rows| - 1];
            RowsOk(rows, ids, allowed, digest) <==>
            RowOk(row, ids, allowed)
            && (KeyOf(row, digest) in texts ==> texts[KeyOf(row, digest)] == Normalize(row.text))
  {
    var n := |rows| - 1;
    var front, row := rows[..n], rows[n];
    ClashesAgree(front, row, digest, texts);
    assert rows == front + [row];
    if RowOk(row, ids, allowed) && NoClash(front, row, digest) {
      RowsOkGrows(front, row, ids, allowed, digest);
    }
    if RowsOk(rows, ids, allowed, digest) {
      assert RowOk(rows[n], ids, allowed);
      forall i | 0 <= i < n && KeyOf(front[i], digest) == KeyOf(row, digest)
        ensures Normalize(front[i].text) == Normalize(row.text)
      {
        assert KeyOf(rows[i], digest) == KeyOf(rows[n], digest);
      }
    }
  }

  /** No earlier row has the same key and another text. */
  ghost predicate NoClash(front: seq<LicenseRow>, row: LicenseRow, digest: Digest) {
    forall i :: 0 <= i < |front| && KeyOf(front[i], digest) == KeyOf(row, digest) ==>
      Normalize(front[i].text) == Normalize(row.text)
  }

  lemma ClashesAgree(front: seq<LicenseRow>, row: LicenseRow, digest: Digest, texts: Texts)
    requires TextsOf(front, digest, texts)
    ensures NoClash(front, row, digest) <==>
            (KeyOf(row, digest) in texts ==> texts[KeyOf(row, digest)] == Normalize(row.text))
  {
    if KeyOf(row, digest) in texts {
      var i :| 0 <= i < |front| && KeyOf(row, digest) == KeyOf(front[i], digest);
      assert texts[KeyOf(row, digest)] == Normalize(front[i].text);
    }
  }

  lemma RowsOkGrows(front: seq<LicenseRow>, row: LicenseRow, ids: set<string>, allowed: set<string>, digest: Digest)
    requires RowsOk(front, ids, allowed, digest) && RowOk(row, ids, allowed) && NoClash(front, row, digest)
    ensures RowsOk(front + [row], ids, allowed, digest)
  {
    var rows := front + [row];
    forall i, j | 0 <= i < j < |rows| && KeyOf(rows[i], digest) == KeyOf(rows[j], digest)
      ensures Normalize(rows[i].text) == Normalize(rows[j].text)
    {
      if j < |front| {
        assert KeyOf(front[i], digest) == KeyOf(front[j], digest);
      } else {
        assert KeyOf(front[i], digest) == KeyOf(row, digest);
      }
    }
  }

  /** Reading rows changes nothing about a package but its texts. */
  lemma {:induction false} RowsFor(
    crates: seq<Crate>, root: string, parse: Parser, rows: seq<LicenseRow>, allowed: set<string>, digest: Digest, i: nat)
    requires i < |crates| && ReadCrates(crates, root, parse).Ok?
    requires var r := ReadCrates(crates, root, parse).value;
             && (forall u :: u in r.ids ==> r.ids[u] in r.packages)
             && AddRows(r.packages, r.ids, rows, allowed, digest).Ok?
    ensures var r := ReadCrates(crates, root, parse).value;
            var inv := AddRows(r.packages, r.ids, rows, allowed, digest).value;
            && crates[i].key in inv.packages
            && inv.packages[crates[i].key] == Record(crates[i].expression, {root}, TextsFor(rows, crates[i].id, digest))
    decreases |rows|
  {
    var r := ReadCrates(crates, root, parse).value;
    CrateReadAs(crates, root, parse, i);
    if rows != [] {
      var front, row := rows[..|rows| - 1], rows[|rows| - 1];
      RowsFor(crates, root, parse, front, allowed, digest, i);
      var before := AddRows(r.packages, r.ids, front, allowed, digest).value;
      AddUsesIs(before.packages, r.ids, row.usedBy, KeyOf(row, digest), crates[i].key);
      OneIdPerKey(crates, root, parse, i);
      TextKeysStep(rows, crates[i].id, digest);
    }
  }

  lemma OneIdPerKey(crates: seq<Crate>, root: string, parse: Parser, i: nat)
    requires i < |crates| && ReadCrates(crates, root, parse).Ok?
    ensures var ids := ReadCrates(crates, root, parse).value.ids;
            forall u :: u in ids && ids[u] == crates[i].key ==> u == crates[i].id
  {
    CratesRead(crates, root, parse);
    var ids := ReadCrates(crates, root, parse).value.ids;
    forall u | u in ids && ids[u] == crates[i].key ensures u == crates[i].id {
      assert u in Ids(crates);
      var j :| 0 <= j < |crates| && crates[j].id == u;
      CrateReadAs(crates, root, parse, j);
      assert i == j;
    }
  }

  /** Exactly when one root's result is accepted. */
  ghost predicate Accepts(p: Payload, parse: Parser, allowed: set<string>, digest: Digest) {
    && CratesOk(p.crates, parse)
    && RowsOk(p.licenses, Ids(p.crates), allowed, digest)
    && (forall i :: 0 <= i < |p.crates| ==> TextsFor(p.licenses, p.crates[i].id, digest) != {})
  }

  /** What an accepted root contributes: every crate with exactly its texts, every text with its bytes. */
  ghost predicate IsInventory(p: Payload, root: string, digest: Digest, inv: Inventory) {
    && inv.packages.Keys == Keys(p.crates)
    && (forall i :: 0 <= i < |p.crates| ==>
          p.crates[i].key in inv.packages &&
          inv.packages[p.crates[i].key] ==
          Record(p.crates[i].expression, {root}, TextsFor(p.licenses, p.crates[i].id, digest)))
    && TextsOf(p.licenses, digest, inv.texts)
  }

  lemma ReadAllIs(p: Payload, root: string, parse: Parser, allowed: set<string>, digest: Digest)
    ensures var r := ReadAll(p, root, parse, allowed, digest);
            && (r.Ok? <==> CratesOk(p.crates, parse) && RowsOk(p.licenses, Ids(p.crates), allowed, digest))
            && (r.Ok? ==> IsInventory(p, root, digest, r.value))
  {
    CratesRead(p.crates, root, parse);
    var crates := ReadCrates(p.crates, root, parse);
    if crates.Ok? {
      IdsKnown(p.crates, root, parse);
      RowsRead(crates.value.packages, crates.value.ids, p.licenses, allowed, digest);
      if ReadAll(p, root, parse, allowed, digest).Ok? {
        RowsAreInventory(p, root, parse, allowed, digest);
      }
    }
  }

  lemma PayloadIsRead(p: Payload, root: string, parse: Parser, allowed: set<string>, digest: Digest)
    ensures var r := ReadPayload(p, root, parse, allowed, digest);
            && (r.Ok? <==> Accepts(p, parse, allowed, digest))
            && (r.Ok? ==> IsInventory(p, root, digest, r.value))
  {
    ReadAllIs(p, root, parse, allowed, digest);
    CheckedIs(p, root, parse, allowed, digest, ReadAll(p, root, parse, allowed, digest));
  }

  lemma CheckedIs(
    p: Payload, root: string, parse: Parser, allowed: set<string>, digest: Digest, all: Result<Inventory, Rejection>)
    requires all.Ok? <==> CratesOk(p.crates, parse) && RowsOk(p.licenses, Ids(p.crates), allowed, digest)
    requires all.Ok? ==> IsInventory(p, root, digest, all.value)
    ensures Checked(all).Ok? <==> Accepts(p, parse, allowed, digest)
    ensures Checked(all).Ok? ==> Checked(all) == all
  {
    if all.Ok? {
      EmptyTextsAgree(p, root, digest, all.value);
    }
  }

  lemma RowsAreInventory(p: Payload, root: string, parse: Parser, allowed: set<string>, digest: Digest)
    requires ReadCrates(p.crates, root, parse).Ok?
    requires var r := ReadCrates(p.crates, root, parse).value;
             && (forall u :: u in r.ids ==> r.ids[u] in r.packages)
             && AddRows(r.packages, r.ids, p.licenses, allowed, digest).Ok?
    ensures var r := ReadCrates(p.crates, root, parse).value;
            IsInventory(p, root, digest, AddRows(r.packages, r.ids, p.licenses, allowed, digest).value)
  {
    var r := ReadCrates(p.crates, root, parse).value;
    var inv := AddRows(r.packages, r.ids, p.licenses, allowed, digest).value;
    CratesRead(p.crates, root, parse);
    RowTexts(r.packages, r.ids, p.licenses, allowed, digest);
    forall i | 0 <= i < |p.crates|
      ensures p.crates[i].key in inv.packages
      ensures inv.packages[p.crates[i].key] ==
              Record(p.crates[i].expression, {root}, TextsFor(p.licenses, p.crates[i].id, digest))
    {
      RowsFor(p.crates, root, parse, p.licenses, allowed, digest, i);
    }
  }

  lemma EmptyTextsAgree(p: Payload, root: string, digest: Digest, inv: Inventory)
    requires IsInventory(p, root, digest, inv)
    ensures (exists k :: k in inv.packages && inv.packages[k].texts == {}) <==>
            exists i :: 0 <= i < |p.crates| && TextsFor(p.licenses, p.crates[i].id, digest) == {}
  {
    forall k | k in inv.packages && inv.packages[k].texts == {}
      ensures exists i :: 0 <= i < |p.crates| && TextsFor(p.licenses, p.crates[i].id, digest) == {}
    {
      var i :| 0 <= i < |p.crates| && p.crates[i].key == k;
      assert TextsFor(p.licenses, p.crates[i].id, digest) == {};
    }
    forall i | 0 <= i < |p.crates| && TextsFor(p.licenses, p.crates[i].id, digest) == {}
      ensures exists k :: k in inv.packages && inv.packages[k].texts == {}
    {
      assert inv.packages[p.crates[i].key].texts == {};
    }
  }

  /** In an inventory every listed text is used by a listed package, and every used text is listed. */
  ghost predicate Referenced(inv: Inventory) {
    forall t :: t in inv.texts <==> exists k :: k in inv.packages && t in inv.packages[k].texts
  }

  lemma AcceptedIsReferenced(p: Payload, root: string, parse: Parser, allowed: set<string>, digest: Digest)
    requires ReadPayload(p, root, parse, allowed, digest).Ok?
    ensures Referenced(ReadPayload(p, root, parse, allowed, digest).value)
  {
    PayloadIsRead(p, root, parse, allowed, digest);
    InventoryIsReferenced(p, root, allowed, digest, ReadPayload(p, root, parse, allowed, digest).value);
  }

  lemma InventoryIsReferenced(p: Payload, root: string, allowed: set<string>, digest: Digest, inv: Inventory)
    requires RowsOk(p.licenses, Ids(p.crates), allowed, digest) && IsInventory(p, root, digest, inv)
    ensures Referenced(inv)
  {
    forall t | t in inv.texts ensures exists k :: k in inv.packages && t in inv.packages[k].texts {
      var k := TextHasUser(p, root, allowed, digest, inv, t);
    }
    forall t, k | k in inv.packages && t in inv.packages[k].texts ensures t in inv.texts {
      var j :| 0 <= j < |p.crates| && p.crates[j].key == k;
      assert t in TextsFor(p.licenses, p.crates[j].id, digest);
      var i :| 0 <= i < |p.licenses| && p.crates[j].id in p.licenses[i].usedBy && KeyOf(p.licenses[i], digest) == t;
    }
  }

  lemma TextHasUser(p: Payload, root: string, allowed: set<string>, digest: Digest, inv: Inventory, t: TextKey)
    returns (k: PackageKey)
    requires RowsOk(p.licenses, Ids(p.crates), allowed, digest) && IsInventory(p, root, digest, inv) && t in inv.texts
    ensures k in inv.packages && t in inv.packages[k].texts
  {
    var i :| 0 <= i < |p.licenses| && KeyOf(p.licenses[i], digest) == t;
    assert RowOk(p.licenses[i], Ids(p.crates), allowed);
    var u := p.licenses[i].usedBy[0];
    assert u in Ids(p.crates);
    var j :| 0 <= j < |p.crates| && p.crates[j].id == u;
    assert t in TextsFor(p.licenses, u, digest);
    k := p.crates[j].key;
  }
}
