/** Configuration documents (core-service/internal/app/config_values.go): merging a patch, hiding
    secrets before a document leaves the server, and taking the edited document back. */
module ConfigValues {

  datatype Option<T> = None | Some(value: T)

  /** The keys that the code names; `SetFlag(k)` is the key k followed by "Set", `Reserved` are
      "__proto__", "constructor" and "prototype", and every other key is `Other`. */
  datatype Key =
    | Telegram | Web | Proxy | Advanced | Nsfw | Seekbar | Ai | Faces
    | ApiHash | ShareSecret | GuestPasswordHash | Password | PasswordHash | Secret | ApiToken | SidecarToken
    | Groups | Accounts | Id | Name | Username
    | MonitorAccount | ForwardAccount | HasMonitorAccount | HasForwardAccount
    | SetFlag(of: Key) | Reserved(name: string) | Other(name: string)

  type Fields = map<Key, Json>

  datatype Json = Null | Bool(flag: bool) | Number(number: real) | Text(text: string) | Array(items: seq<Json>)
    | Object(fields: Fields)

  function Decimal(n: nat): string {
    if n < 10 then ["0123456789"[n]] else Decimal(n / 10) + ["0123456789"[n % 10]]
  }

  /** The text an id is compared by; fractions are cut off. */
  function ToString(j: Json): string {
    match j
    case Text(s) => s
    case Number(r) => if r >= 0.0 then Decimal(r.Floor) else if (-r).Floor == 0 then "0" else "-" + Decimal((-r).Floor)
    case _ => ""
  }

  function IdOf(f: Fields): string {
    if Id in f then ToString(f[Id]) else ""
  }

  predicate Listed(k: Key) {
    k == Groups || k == Accounts
  }

  const HAS := {HasMonitorAccount, HasForwardAccount}

  // ---- mergeConfig ----

  /** The last existing object with this id. */
  function Lookup(items: seq<Json>, id: string): Fields {
    if items == [] then map[]
    else
      var last := items[|items| - 1];
      if last.Object? && IdOf(last.fields) == id then last.fields else Lookup(items[..|items| - 1], id)
  }

  function ItemsOf(was: Option<Json>): seq<Json> {
    if was.Some? && was.value.Array? then was.value.items else []
  }

  function FieldsOf(was: Option<Json>): Fields {
    if was.Some? && was.value.Object? then was.value.fields else map[]
  }

  function Get(f: Fields, k: Key): Option<Json> {
    if k in f then Some(f[k]) else None
  }

  function Merge(target: Fields, patch: Json): Fields
    requires patch.Object?
    decreases patch, 0
  {
    map k | k in target.Keys + (set k | k in patch.fields && !k.Reserved?) ::
      if k in patch.fields && !k.Reserved? then MergeValue(k, Get(target, k), patch.fields[k]) else target[k]
  }

  function MergeValue(k: Key, was: Option<Json>, v: Json): Json
    decreases v, if v.Array? then |v.items| + 1 else 1
  {
    if v.Array? && Listed(k) then Array(MergeItems(ItemsOf(was), v, |v.items|))
    else if v.Object? then Object(Merge(FieldsOf(was), v))
    else v
  }

  /** The first n items of the incoming list, each laid over the existing one with its id. */
  function MergeItems(existing: seq<Json>, v: Json, n: nat): (r: seq<Json>)
    requires v.Array? && n <= |v.items|
    ensures |r| == n
    decreases v, n
  {
    if n == 0 then []
    else
      var item := v.items[n - 1];
      MergeItems(existing, v, n - 1) + [if item.Object? then
                                          Object(Merge(Lookup(existing, IdOf(item.fields)), item) - HAS) else item]
  }

  lemma {:induction false} MergeItemAt(existing: seq<Json>, v: Json, n: nat, i: nat)
    requires v.Array? && i < n <= |v.items|
    ensures var item := v.items[i];
            MergeItems(existing, v, n)[i] == if item.Object? then
              Object(Merge(Lookup(existing, IdOf(item.fields)), item) - HAS) else item
  {
    if i < n - 1 {
      MergeItemAt(existing, v, n - 1, i);
    }
  }

  // ---- A patch that is part of a document ----

  /** Places in a document: the keys that lead to an object, and a key in it. */
  type Places = set<(seq<Key>, Key)>

  function Below(d: Places, k: Key): Places {
    set p | p in d && p.0 != [] && p.0[0] == k :: (p.0[1..], p.1)
  }

  function RootPlaces(keys: set<Key>): Places {
    set k | k in keys :: ([], k)
  }

  /** The patch says nothing that the document does not say, except at these places. */
  ghost predicate Part(t: Fields, p: Json, d: Places)
    decreases p, 0
  {
    p.Object? && forall k :: k in p.fields && !k.Reserved? && ([], k) !in d ==>
      k in t && PartValue(k, t[k], p.fields[k], Below(d, k))
  }

  ghost predicate PartValue(k: Key, t: Json, v: Json, d: Places)
    decreases v, 1
  {
    if v.Array? && Listed(k) then t.Array? && |t.items| == |v.items| && forall i :: 0 <= i < |v.items| ==>
      PartItem(t.items, i, v.items[i])
    else if v.Object? then t.Object? && Part(t.fields, v, d)
    else v == t
  }

  /** An item of the patch finds its own item, which carries no has...Account flag. */
  ghost predicate PartItem(items: seq<Json>, i: nat, v: Json)
    requires i < |items|
    decreases v, 2
  {
    if !v.Object? then v == items[i]
    else
      && items[i].Object? && Lookup(items, IdOf(v.fields)) == items[i].fields
      && HasMonitorAccount !in items[i].fields && HasForwardAccount !in items[i].fields
      && Part(items[i].fields, v, RootPlaces(HAS))
  }

  /** The documents agree, except at these places. */
  ghost predicate Agree(t: Fields, m: Json, d: Places)
    decreases m, 0
  {
    m.Object? && forall k ::
      ([], k) in d || ((k in t <==> k in m.fields) &&
                       (k in m.fields && k in t ==> AgreeValue(t[k], m.fields[k], Below(d, k))))
  }

  ghost predicate AgreeValue(t: Json, m: Json, d: Places)
    decreases m, 1
  {
    t == m || (t.Object? && m.Object? && Agree(t.fields, m, d))
  }

  lemma {:induction false} BelowEmpty(k: Key)
    ensures Below({}, k) == {}
  {
  }

  lemma {:induction false} BelowRoot(keys: set<Key>, k: Key)
    ensures Below(RootPlaces(keys), k) == {}
  {
  }

  lemma {:induction false} AgreeNowhere(t: Fields, m: Json)
    requires Agree(t, m, {})
    ensures m.fields == t
    decreases m
  {
    forall k | k in m.fields && k in t ensures t[k] == m.fields[k] {
      BelowEmpty(k);
      if t[k] != m.fields[k] {
        AgreeNowhere(t[k].fields, m.fields[k]);
      }
    }
    assert forall k :: k in t <==> k in m.fields;
  }

  /** Merging a part of a document into it changes nothing but these places. */
  lemma {:induction false} PartMerges(t: Fields, p: Json, d: Places)
    requires Part(t, p, d)
    ensures Agree(t, Object(Merge(t, p)), d)
    decreases p
  {
    forall k | ([], k) !in d && k in p.fields && !k.Reserved?
      ensures AgreeValue(t[k], MergeValue(k, Get(t, k), p.fields[k]), Below(d, k)) {
      PartValueMerges(k, t, p, d);
    }
  }

  lemma {:induction false} PartValueMerges(k: Key, t: Fields, p: Json, d: Places)
    requires Part(t, p, d) && k in p.fields && !k.Reserved? && ([], k) !in d
    ensures AgreeValue(t[k], MergeValue(k, Get(t, k), p.fields[k]), Below(d, k))
    decreases p, 0
  {
    var v := p.fields[k];
    if v.Array? && Listed(k) {
      var merged := MergeItems(t[k].items, v, |v.items|);
      forall i | 0 <= i < |v.items| ensures merged[i] == t[k].items[i] {
        MergeItemAt(t[k].items, v, |v.items|, i);
        assert PartItem(t[k].items, i, v.items[i]);
        if v.items[i].Object? {
          PartMerges(t[k].items[i].fields, v.items[i], RootPlaces(HAS));
          WithoutFlags(t[k].items[i].fields, Merge(t[k].items[i].fields, v.items[i]));
        }
      }
      assert merged == t[k].items;
    } else if v.Object? {
      PartMerges(t[k].fields, v, Below(d, k));
    }
  }

  lemma {:induction false} WithoutFlags(t: Fields, m: Fields)
    requires Agree(t, Object(m), RootPlaces(HAS)) && HasMonitorAccount !in t && HasForwardAccount !in t
    ensures m - HAS == t
  {
    var n := Object(m - HAS);
    forall k ensures (k in t <==> k in n.fields) &&
    (k in n.fields && k in t ==> AgreeValue(t[k], n.fields[k], Below({}, k))) {
      BelowRoot(HAS, k);
      BelowEmpty(k);
      assert ([], k) in RootPlaces(HAS) <==> k in HAS;
    }
    AgreeNowhere(t, n);
  }

  // ---- Merging twice ----

  predicate DistinctIds(items: seq<Json>) {
    forall i, j :: 0 <= i < j < |items| && items[i].Object? && items[j].Object? ==>
      IdOf(items[i].fields) != IdOf(items[j].fields)
  }

  /** The lists of groups and accounts, wherever a merge reaches them, name every id once. */
  ghost predicate Clear(p: Json)
    decreases p, 0
  {
    p.Object? ==> forall k :: k in p.fields && !k.Reserved? ==> ClearValue(k, p.fields[k])
  }

  ghost predicate ClearValue(k: Key, v: Json)
    decreases v, 1
  {
    if v.Array? && Listed(k) then DistinctIds(v.items) && forall i :: 0 <= i < |v.items| ==>
      Clear(v.items[i]) else Clear(v)
  }

  lemma {:induction false} LookupFinds(items: seq<Json>, i: nat)
    requires i < |items| && items[i].Object? && DistinctIds(items)
    ensures Lookup(items, IdOf(items[i].fields)) == items[i].fields
  {
    var last := items[|items| - 1];
    if i < |items| - 1 {
      assert last.Object? ==> IdOf(last.fields) != IdOf(items[i].fields);
      LookupFinds(items[..|items| - 1], i);
    }
  }

  lemma {:induction false} LookupId(items: seq<Json>, id: string)
    ensures Lookup(items, id) == map[] || IdOf(Lookup(items, id)) == id
  {
    if items != [] && !(items[|items| - 1].Object? && IdOf(items[|items| - 1].fields) == id) {
      LookupId(items[..|items| - 1], id);
    }
  }

  /** A merged item keeps the id it was found by. */
  lemma {:induction false} MergedItemId(existing: seq<Json>, item: Json)
    requires item.Object?
    ensures IdOf(Merge(Lookup(existing, IdOf(item.fields)), item) - HAS) == IdOf(item.fields)
  {
    LookupId(existing, IdOf(item.fields));
    var found := Lookup(existing, IdOf(item.fields));
    assert Id !in HAS;
    assert found == map[] ==> Id !in found;
  }

  lemma {:induction false} PartWithoutFlags(t: Fields, p: Json)
    requires Part(t, p, {})
    ensures Part(t - HAS, p, RootPlaces(HAS))
  {
    forall k | k in p.fields && !k.Reserved? && ([], k) !in RootPlaces(HAS)
      ensures k in t - HAS && PartValue(k, (t - HAS)[k], p.fields[k], Below(RootPlaces(HAS), k)) {
      BelowRoot(HAS, k);
      BelowEmpty(k);
      assert k in HAS ==> ([], k) in RootPlaces(HAS);
    }
  }

  /** What a clear patch was merged into says everything that the patch says. */
  lemma {:induction false} MergedHoldsPatch(t: Fields, p: Json)
    requires p.Object? && Clear(p)
    ensures Part(Merge(t, p), p, {})
    decreases p, 2
  {
    forall k | k in p.fields && !k.Reserved? ensures PartValue(k, Merge(t, p)[k], p.fields[k], Below({}, k)) {
      BelowEmpty(k);
      assert ClearValue(k, p.fields[k]);
      MergedHoldsValue(k, Get(t, k), p.fields[k]);
    }
  }

  lemma {:induction false} MergedHoldsValue(k: Key, was: Option<Json>, v: Json)
    requires ClearValue(k, v)
    ensures PartValue(k, MergeValue(k, was, v), v, {})
    decreases v, 3
  {
    if v.Array? && Listed(k) {
      var items := MergeItems(ItemsOf(was), v, |v.items|);
      forall i | 0 <= i < |v.items| ensures PartItem(items, i, v.items[i]) {
        MergeItemAt(ItemsOf(was), v, |v.items|, i);
        if v.items[i].Object? {
          var found := Lookup(ItemsOf(was), IdOf(v.items[i].fields));
          MergedHoldsPatch(found, v.items[i]);
          PartWithoutFlags(Merge(found, v.items[i]), v.items[i]);
          MergedListDistinct(ItemsOf(was), v);
          LookupFinds(items, i);
          MergedItemId(ItemsOf(was), v.items[i]);
        }
      }
    } else if v.Object? {
      MergedHoldsPatch(FieldsOf(was), v);
    }
  }

  lemma {:induction false} MergedListDistinct(existing: seq<Json>, v: Json)
    requires v.Array? && DistinctIds(v.items)
    ensures DistinctIds(MergeItems(existing, v, |v.items|))
  {
    var items := MergeItems(existing, v, |v.items|);
    forall i, j | 0 <= i < j < |items| && items[i].Object? && items[j].Object?
      ensures IdOf(items[i].fields) != IdOf(items[j].fields) {
      MergeItemAt(existing, v, |v.items|, i);
      MergeItemAt(existing, v, |v.items|, j);
      MergedItemId(existing, v.items[i]);
      MergedItemId(existing, v.items[j]);
    }
  }

  /** Merging a patch twice is merging it once, for every document and every patch whose lists
      name each id once. */
  lemma {:induction false} MergeTwice(t: Fields, p: Json)
    requires p.Object? && Clear(p)
    ensures Merge(Merge(t, p), p) == Merge(t, p)
  {
    MergedHoldsPatch(t, p);
    PartMerges(Merge(t, p), p, {});
    AgreeNowhere(Merge(t, p), Object(Merge(Merge(t, p), p)));
  }

  // ---- Redaction ----

  datatype Hidden = Hidden(path: seq<Key>, key: Key)

  /** `configSecrets`. */
  const SECRETS := [
    Hidden([Telegram], ApiHash), Hidden([Web], ShareSecret), Hidden([Web], GuestPasswordHash),
    Hidden([Proxy], Password), Hidden([Advanced, Nsfw], ApiToken),
    Hidden([Proxy], Secret),
    Hidden([Advanced, Seekbar], ApiToken), Hidden([Advanced, Ai, Faces], SidecarToken)
  ]

  predicate Present(block: Fields, k: Key) {
    k in block && block[k] != Null && block[k] != Text("") && block[k] != Bool(false)
  }

  /** A secret is replaced by a flag saying whether it is set; an old proxy block without the
      MTProxy secret keeps its shape. */
  function HideKey(block: Fields, s: Hidden): Fields {
    if s == Hidden([Proxy], Secret) && s.key !in block then block
    else block[SetFlag(s.key) := Bool(Present(block, s.key))] - {s.key}
  }

  function HideAt(f: Fields, path: seq<Key>, s: Hidden): Fields
    decreases |path|
  {
    if path == [] then HideKey(f, s)
    else if path[0] in f && f[path[0]].Object? then f[path[0] := Object(HideAt(f[path[0]].fields, path[1..], s))]
    else f
  }

  function DeleteAt(f: Fields, path: seq<Key>, keys: set<Key>): Fields
    decreases |path|
  {
    if path == [] then f - keys
    else if path[0] in f && f[path[0]].Object? then f[path[0] := Object(DeleteAt(f[path[0]].fields, path[1..], keys))]
    else f
  }

  function HideSecrets(f: Fields, n: nat): Fields
    requires n <= |SECRETS|
  {
    if n == 0 then f else HideAt(HideSecrets(f, n - 1), SECRETS[n - 1].path, SECRETS[n - 1])
  }

  /** `stripPresenceFlags`. */
  function StripFlags(f: Fields, n: nat): Fields
    requires n <= |SECRETS|
  {
    if n == 0 then f else DeleteAt(StripFlags(f, n - 1), SECRETS[n - 1].path, {SetFlag(SECRETS[n - 1].key)})
  }

  function Strip(f: Fields): Fields {
    StripFlags(f, |SECRETS|)
  }

  /** Of an account only its id, name and user name are shown. */
  function ShownAccount(j: Json): Json {
    Object(if j.Object? then map k | k in j.fields && (k == Id || k == Name || k == Username) :: j.fields[k] else map[])
  }

  function HidePin(f: Fields, k: Key, flag: Key): Fields {
    if k in f && f[k] != Null && f[k] != Text("") then f[flag := Bool(true)] - {k} else f
  }

  /** Of a group the pinned accounts are hidden behind flags. */
  function ShownGroup(j: Json): Json {
    if j.Object? then Object(HidePin(HidePin(j.fields, MonitorAccount, HasMonitorAccount), ForwardAccount,
                                     HasForwardAccount)) else j
  }

  function ShowItems(items: seq<Json>, show: Json -> Json): (r: seq<Json>)
    ensures |r| == |items| && forall i :: 0 <= i < |items| ==> r[i] == show(items[i])
  {
    seq(|items|, i requires 0 <= i < |items| => show(items[i]))
  }

  function ShowList(f: Fields, k: Key, show: Json -> Json): Fields {
    if k in f && f[k].Array? then f[k := Array(ShowItems(f[k].items, show))] else f
  }

  /** `redactConfig`. */
  function Redact(f: Fields): Fields {
    var hidden := DeleteAt(HideSecrets(f, |SECRETS|), [Web], {Password, PasswordHash});
    ShowList(ShowList(hidden, Accounts, ShownAccount), Groups, ShownGroup)
  }

  lemma {:induction false} SecretPaths(i: nat)
    requires i < |SECRETS|
    ensures SECRETS[i].path != [] && SECRETS[i].path[0] != Accounts && SECRETS[i].path[0] != Groups &&
            !SECRETS[i].key.SetFlag?
  {
  }

  // ---- What redaction takes away ----

  predicate Lacks(f: Fields, path: seq<Key>, k: Key)
    decreases |path|
  {
    if path == [] then k !in f else path[0] in f && f[path[0]].Object? ==> Lacks(f[path[0]].fields, path[1..], k)
  }

  lemma {:induction false} HideLacks(f: Fields, path: seq<Key>, s: Hidden)
    requires !s.key.SetFlag?
    ensures Lacks(HideAt(f, path, s), path, s.key)
    decreases |path|
  {
    if path != [] && path[0] in f && f[path[0]].Object? {
      HideLacks(f[path[0]].fields, path[1..], s);
    }
  }

  lemma {:induction false} HideKeepsLack(f: Fields, path: seq<Key>, s: Hidden, other: seq<Key>, k: Key)
    requires Lacks(f, other, k) && !k.SetFlag?
    ensures Lacks(HideAt(f, path, s), other, k)
    decreases |path|
  {
    if path != [] && path[0] in f && f[path[0]].Object? && other != [] && other[0] == path[0] {
      HideKeepsLack(f[path[0]].fields, path[1..], s, other[1..], k);
    }
  }

  lemma {:induction false} DeleteKeepsLack(f: Fields, path: seq<Key>, keys: set<Key>, other: seq<Key>, k: Key)
    requires Lacks(f, other, k)
    ensures Lacks(DeleteAt(f, path, keys), other, k)
    decreases |path|
  {
    if path != [] && path[0] in f && f[path[0]].Object? && other != [] && other[0] == path[0] {
      DeleteKeepsLack(f[path[0]].fields, path[1..], keys, other[1..], k);
    }
  }

  lemma {:induction false} HiddenSecretsLack(f: Fields, n: nat, i: nat)
    requires i < n <= |SECRETS|
    ensures Lacks(HideSecrets(f, n), SECRETS[i].path, SECRETS[i].key)
  {
    SecretPaths(i);
    if i == n - 1 {
      HideLacks(HideSecrets(f, n - 1), SECRETS[i].path, SECRETS[i]);
    } else {
      HiddenSecretsLack(f, n - 1, i);
      HideKeepsLack(HideSecrets(f, n - 1), SECRETS[n - 1].path, SECRETS[n - 1], SECRETS[i].path, SECRETS[i].key);
    }
  }

  /** A redacted document holds none of the secrets, whatever the document looked like. */
  lemma {:induction false} NoSecretIsShown(f: Fields, i: nat)
    requires i < |SECRETS|
    ensures Lacks(Redact(f), SECRETS[i].path, SECRETS[i].key)
  {
    HiddenSecretsLack(f, |SECRETS|, i);
    DeleteKeepsLack(HideSecrets(f, |SECRETS|), [Web], {Password, PasswordHash}, SECRETS[i].path, SECRETS[i].key);
    SecretPaths(i);
  }

  // ---- The redacted document is part of the document ----

  /** A document whose lists of groups and accounts hold objects with distinct ids and no
      has...Account flag, wherever a merge reaches such a list. */
  ghost predicate Tidy(t: Json)
    decreases t, 0
  {
    t.Object? ==> forall k :: k in t.fields && !k.Reserved? ==> TidyValue(k, t.fields[k])
  }

  ghost predicate TidyValue(k: Key, v: Json)
    decreases v, 1
  {
    if v.Array? && Listed(k) then
      && DistinctIds(v.items)
      && forall i :: 0 <= i < |v.items| && v.items[i].Object? ==>
           HasMonitorAccount !in v.items[i].fields && HasForwardAccount !in v.items[i].fields && Tidy(v.items[i])
    else Tidy(v)
  }

  predicate AccountsAreObjects(f: Fields) {
    Accounts in f && f[Accounts].Array? ==> forall i :: 0 <= i < |f[Accounts].items| ==> f[Accounts].items[i].Object?
  }

  lemma {:induction false} PartAtRoot(t: Fields, p: Json, keys: set<Key>)
    requires Part(t, p, {})
    ensures Part(t, p, RootPlaces(keys))
  {
    forall k | k in p.fields && !k.Reserved? && ([], k) !in RootPlaces(keys)
      ensures k in t && PartValue(k, t[k], p.fields[k], Below(RootPlaces(keys), k)) {
      BelowRoot(keys, k);
      BelowEmpty(k);
    }
  }

  lemma {:induction false} PartOfItself(t: Json)
    requires t.Object? && Tidy(t)
    ensures Part(t.fields, t, {})
    decreases t, 0
  {
    forall k | k in t.fields && !k.Reserved? ensures PartValue(k, t.fields[k], t.fields[k], Below({}, k)) {
      BelowEmpty(k);
      assert TidyValue(k, t.fields[k]);
      ValueOfItself(k, t.fields[k]);
    }
  }

  lemma {:induction false} ValueOfItself(k: Key, v: Json)
    requires TidyValue(k, v)
    ensures PartValue(k, v, v, {})
    decreases v, 1
  {
    if v.Array? && Listed(k) {
      forall i | 0 <= i < |v.items| ensures PartItem(v.items, i, v.items[i]) {
        if v.items[i].Object? {
          LookupFinds(v.items, i);
          PartOfItself(v.items[i]);
          PartAtRoot(v.items[i].fields, v.items[i], HAS);
        }
      }
    } else if v.Object? {
      PartOfItself(v);
    }
  }

  function PlacesAt(path: seq<Key>, keys: set<Key>): Places {
    set k | k in keys :: (path, k)
  }

  lemma {:induction false} BelowMeans(d: Places, k: Key, q: (seq<Key>, Key))
    ensures q in Below(d, k) <==> ([k] + q.0, q.1) in d
  {
    if ([k] + q.0, q.1) in d {
      var p := ([k] + q.0, q.1);
      assert p.0[1..] == q.0;
    }
    if q in Below(d, k) {
      var p :| p in d && p.0 != [] && p.0[0] == k && (p.0[1..], p.1) == q;
      assert p.0 == [k] + q.0;
    }
  }

  lemma {:induction false} PlaceAt(path: seq<Key>, keys: set<Key>, k: Key, q: (seq<Key>, Key))
    ensures ([k] + q.0, q.1) in PlacesAt(path, keys) <==> path != [] && path[0] == k && q in PlacesAt(path[1..], keys)
  {
    if path != [] && path[0] == k {
      assert path == [k] + path[1..];
      assert path[1..] == q.0 <==> path == [k] + q.0;
    }
  }

  lemma {:induction false} BelowAdded(d: Places, path: seq<Key>, keys: set<Key>, k: Key)
    ensures Below(d + PlacesAt(path, keys), k) == if path != [] && path[0] == k then
              Below(d, k) + PlacesAt(path[1..], keys) else Below(d, k)
  {
    forall q ensures q in Below(d + PlacesAt(path, keys), k) <==>
      q in Below(d, k) || (path != [] && path[0] == k && q in PlacesAt(path[1..], keys)) {
      BelowMeans(d + PlacesAt(path, keys), k, q);
      BelowMeans(d, k, q);
      PlaceAt(path, keys, k, q);
    }
  }

  lemma {:induction false} BelowTaken(d: Places, path: seq<Key>, keys: set<Key>, k: Key)
    ensures Below(d - PlacesAt(path, keys), k) == if path != [] && path[0] == k then
              Below(d, k) - PlacesAt(path[1..], keys) else Below(d, k)
  {
    forall q ensures q in Below(d - PlacesAt(path, keys), k) <==>
      q in Below(d, k) && !(path != [] && path[0] == k && q in PlacesAt(path[1..], keys)) {
      BelowMeans(d - PlacesAt(path, keys), k, q);
      BelowMeans(d, k, q);
      PlaceAt(path, keys, k, q);
    }
  }

  lemma {:induction false} PartAfterHide(t: Fields, p: Json, d: Places, path: seq<Key>, s: Hidden)
    requires Part(t, p, d)
    ensures Part(t, Object(HideAt(p.fields, path, s)), d + PlacesAt(path, {SetFlag(s.key)}))
    decreases |path|
  {
    var places := PlacesAt(path, {SetFlag(s.key)});
    var q := Object(HideAt(p.fields, path, s));
    forall k | k in q.fields && !k.Reserved? && ([], k) !in d + places
      ensures k in t && PartValue(k, t[k], q.fields[k], Below(d + places, k)) {
      BelowAdded(d, path, {SetFlag(s.key)}, k);
      if path == [] {
        assert k != SetFlag(s.key) by {
          assert ([], SetFlag(s.key)) in places;
        }
      } else if k == path[0] && p.fields[k].Object? {
        PartAfterHide(t[k].fields, p.fields[k], Below(d, k), path[1..], s);
      }
    }
  }

  lemma {:induction false} PartAfterDelete(t: Fields, p: Json, d: Places, path: seq<Key>, keys: set<Key>)
    requires Part(t, p, d)
    ensures Part(t, Object(DeleteAt(p.fields, path, keys)), d - PlacesAt(path, keys))
    decreases |path|
  {
    var q := Object(DeleteAt(p.fields, path, keys));
    forall k | k in q.fields && !k.Reserved? && ([], k) !in d - PlacesAt(path, keys)
      ensures k in t && PartValue(k, t[k], q.fields[k], Below(d - PlacesAt(path, keys), k))
    {
      BelowTaken(d, path, keys, k);
      if path != [] && k == path[0] && p.fields[k].Object? {
        PartAfterDelete(t[k].fields, p.fields[k], Below(d, k), path[1..], keys);
      }
    }
  }

  function FlagPlaces(n: nat): Places
    requires n <= |SECRETS|
  {
    if n == 0 then {} else FlagPlaces(n - 1) + PlacesAt(SECRETS[n - 1].path, {SetFlag(SECRETS[n - 1].key)})
  }

  lemma {:induction false} PartAfterHiding(c: Fields, n: nat)
    requires n <= |SECRETS| && Tidy(Object(c))
    ensures Part(c, Object(HideSecrets(c, n)), FlagPlaces(n))
  {
    if n == 0 {
      PartOfItself(Object(c));
    } else {
      PartAfterHiding(c, n - 1);
      PartAfterHide(c, Object(HideSecrets(c, n - 1)), FlagPlaces(n - 1), SECRETS[n - 1].path, SECRETS[n - 1]);
    }
  }

  lemma {:induction false} HidingKeepsLists(c: Fields, n: nat, k: Key)
    requires n <= |SECRETS| && Listed(k)
    ensures Get(HideSecrets(c, n), k) == Get(c, k)
  {
    if n > 0 {
      HidingKeepsLists(c, n - 1, k);
      SecretPaths(n - 1);
      HideElsewhere(HideSecrets(c, n - 1), SECRETS[n - 1].path, SECRETS[n - 1], k);
    }
  }

  lemma {:induction false} HideElsewhere(f: Fields, path: seq<Key>, s: Hidden, k: Key)
    requires path != [] && path[0] != k
    ensures Get(HideAt(f, path, s), k) == Get(f, k)
  {
  }

  /** A list may be shown in part if every shown item finds its own and says nothing else. */
  lemma {:induction false} PartAfterShow(t: Fields, f: Fields, d: Places, k: Key, show: Json -> Json)
    requires Listed(k) && Part(t, Object(f), d) && ([], k) !in d && Get(f, k) == Get(t, k)
    requires k in t && t[k].Array? ==> forall i :: 0 <= i < |t[k].items| ==>
               PartItem(t[k].items, i, show(t[k].items[i]))
    ensures Part(t, Object(ShowList(f, k, show)), d)
    ensures forall other :: other != k ==> Get(ShowList(f, k, show), other) == Get(f, other)
  {
    var q := Object(ShowList(f, k, show));
    forall other | other in q.fields && !other.Reserved? && ([], other) !in d
      ensures other in t && PartValue(other, t[other], q.fields[other], Below(d, other)) {
      if other == k && f[k].Array? {
        assert f[k] == t[k];
      } else {
        assert q.fields[other] == f[other];
      }
    }
  }

  lemma {:induction false} ShownAccountFits(items: seq<Json>, i: nat)
    requires i < |items| && TidyValue(Accounts, Array(items)) && items[i].Object?
    ensures PartItem(items, i, ShownAccount(items[i]))
  {
    var shown := ShownAccount(items[i]);
    LookupFinds(items, i);
    PartOfItself(items[i]);
    PartAtRoot(items[i].fields, items[i], HAS);
    assert IdOf(shown.fields) == IdOf(items[i].fields);
    assert forall k :: k in shown.fields ==> k in items[i].fields && shown.fields[k] == items[i].fields[k];
  }

  lemma {:induction false} ShownGroupFits(items: seq<Json>, i: nat)
    requires i < |items| && TidyValue(Groups, Array(items))
    ensures PartItem(items, i, ShownGroup(items[i]))
  {
    if items[i].Object? {
      var shown := ShownGroup(items[i]);
      LookupFinds(items, i);
      PartOfItself(items[i]);
      PartAtRoot(items[i].fields, items[i], HAS);
      assert IdOf(shown.fields) == IdOf(items[i].fields);
      forall k | k in shown.fields && k !in HAS ensures k in items[i].fields && shown.fields[k] == items[i].fields[k] {}
      forall k | k in HAS ensures ([], k) in RootPlaces(HAS) {}
    }
  }

  lemma {:induction false} NoFlagAtRoot(n: nat, k: Key)
    requires n <= |SECRETS|
    ensures ([], k) !in FlagPlaces(n)
  {
    if n > 0 {
      NoFlagAtRoot(n - 1, k);
      SecretPaths(n - 1);
    }
  }

  /** A redacted document is part of the document, but for the flags in place of the secrets. */
  lemma {:induction false} RedactedIsPart(c: Fields)
    requires Tidy(Object(c)) && AccountsAreObjects(c)
    ensures Part(c, Object(Redact(c)), FlagPlaces(|SECRETS|))
  {
    var d := FlagPlaces(|SECRETS|);
    var secret := HideSecrets(c, |SECRETS|);
    PartAfterHiding(c, |SECRETS|);
    HidingKeepsLists(c, |SECRETS|, Accounts);
    HidingKeepsLists(c, |SECRETS|, Groups);
    var hidden := DeleteAt(secret, [Web], {Password, PasswordHash});
    PartAfterDelete(c, Object(secret), d, [Web], {Password, PasswordHash});
    FlagsStay(c, Object(hidden));
    NoFlagAtRoot(|SECRETS|, Accounts);
    NoFlagAtRoot(|SECRETS|, Groups);
    if Accounts in c && c[Accounts].Array? {
      assert TidyValue(Accounts, c[Accounts]);
      forall i | 0 <= i < |c[Accounts].items|
        ensures PartItem(c[Accounts].items, i, ShownAccount(c[Accounts].items[i])) {
        ShownAccountFits(c[Accounts].items, i);
      }
    }
    if Groups in c && c[Groups].Array? {
      assert TidyValue(Groups, c[Groups]);
      forall i | 0 <= i < |c[Groups].items| ensures PartItem(c[Groups].items, i, ShownGroup(c[Groups].items[i])) {
        ShownGroupFits(c[Groups].items, i);
      }
    }
    PartAfterShow(c, hidden, d, Accounts, ShownAccount);
    PartAfterShow(c, ShowList(hidden, Accounts, ShownAccount), d, Groups, ShownGroup);
  }

  /** No presence flag is a password of the web block. */
  lemma {:induction false} FlagsStay(c: Fields, p: Json)
    requires Part(c, p, FlagPlaces(|SECRETS|) - PlacesAt([Web], {Password, PasswordHash}))
    ensures Part(c, p, FlagPlaces(|SECRETS|))
  {
    NoPassword(|SECRETS|);
    assert FlagPlaces(|SECRETS|) - PlacesAt([Web], {Password, PasswordHash}) == FlagPlaces(|SECRETS|);
  }

  lemma {:induction false} NoPassword(n: nat)
    requires n <= |SECRETS|
    ensures forall q :: q in FlagPlaces(n) ==> q.1.SetFlag?
  {
    if n > 0 {
      NoPassword(n - 1);
    }
  }

  // ---- The edited document comes back ----

  lemma {:induction false} PartAfterStrip(c: Fields, p: Json, n: nat)
    requires n <= |SECRETS| && Part(c, p, FlagPlaces(|SECRETS|))
    ensures Part(c, Object(StripFlags(p.fields, n)), FlagPlaces(|SECRETS|) - FlagPlaces(n))
  {
    if n == 0 {
      assert FlagPlaces(|SECRETS|) - FlagPlaces(0) == FlagPlaces(|SECRETS|);
    } else {
      PartAfterStrip(c, p, n - 1);
      var places := PlacesAt(SECRETS[n - 1].path, {SetFlag(SECRETS[n - 1].key)});
      PartAfterDelete(c, Object(StripFlags(p.fields, n - 1)), FlagPlaces(|SECRETS|) - FlagPlaces(n - 1),
                      SECRETS[n - 1].path, {SetFlag(SECRETS[n - 1].key)});
      assert FlagPlaces(|SECRETS|) - FlagPlaces(n - 1) - places == FlagPlaces(|SECRETS|) - FlagPlaces(n);
    }
  }

  /** The round trip: merging the redacted document, without its flags, back into the document
      changes nothing. */
  lemma {:induction false} RoundTrip(c: Fields)
    requires Tidy(Object(c)) && AccountsAreObjects(c)
    ensures Merge(c, Object(Strip(Redact(c)))) == c
  {
    RedactedIsPart(c);
    PartAfterStrip(c, Object(Redact(c)), |SECRETS|);
    var p := Object(Strip(Redact(c)));
    assert FlagPlaces(|SECRETS|) - FlagPlaces(|SECRETS|) == {};
    PartMerges(c, p, {});
    AgreeNowhere(c, Object(Merge(c, p)));
  }

  lemma {:induction false} AgreeAfterDelete(t: Fields, m: Json, d: Places, path: seq<Key>, keys: set<Key>)
    requires Agree(t, m, d) && DeleteAt(t, path, keys) == t
    ensures Agree(t, Object(DeleteAt(m.fields, path, keys)), d - PlacesAt(path, keys))
    decreases |path|
  {
    var n := Object(DeleteAt(m.fields, path, keys));
    var e := d - PlacesAt(path, keys);
    forall k ensures ([], k) in e ||
    ((k in t <==> k in n.fields) && (k in n.fields && k in t ==> AgreeValue(t[k], n.fields[k], Below(e, k)))) {
      BelowTaken(d, path, keys, k);
      if path == [] {
        assert k in keys <==> ([], k) in PlacesAt(path, keys);
        assert k in keys ==> k !in t;
      } else if k == path[0] && k in m.fields && m.fields[k].Object? && k in t && ([], k) !in d {
        if t[k].Object? {
          assert DeleteAt(t, path, keys)[k] == t[k];
          if t[k] != m.fields[k] {
            AgreeAfterDelete(t[k].fields, m.fields[k], Below(d, k), path[1..], keys);
          }
        }
      }
    }
  }

  lemma {:induction false} AgreeAfterStrip(c: Fields, m: Json, n: nat)
    requires n <= |SECRETS| && Agree(c, m, FlagPlaces(|SECRETS|))
    requires forall i :: 0 <= i < |SECRETS| ==> DeleteAt(c, SECRETS[i].path, {SetFlag(SECRETS[i].key)}) == c
    ensures Agree(c, Object(StripFlags(m.fields, n)), FlagPlaces(|SECRETS|) - FlagPlaces(n))
  {
    if n == 0 {
      assert FlagPlaces(|SECRETS|) - FlagPlaces(0) == FlagPlaces(|SECRETS|);
    } else {
      AgreeAfterStrip(c, m, n - 1);
      var places := PlacesAt(SECRETS[n - 1].path, {SetFlag(SECRETS[n - 1].key)});
      AgreeAfterDelete(c, Object(StripFlags(m.fields, n - 1)), FlagPlaces(|SECRETS|) - FlagPlaces(n - 1),
                       SECRETS[n - 1].path, {SetFlag(SECRETS[n - 1].key)});
      assert FlagPlaces(|SECRETS|) - FlagPlaces(n - 1) - places == FlagPlaces(|SECRETS|) - FlagPlaces(n);
    }
  }

  /** The order of the handler, merging the redacted document as it was sent and stripping the
      flags afterwards, gives the document back if it holds no flag itself. */
  lemma {:induction false} RoundTripOfHandler(c: Fields)
    requires Tidy(Object(c)) && AccountsAreObjects(c)
    requires forall i :: 0 <= i < |SECRETS| ==> DeleteAt(c, SECRETS[i].path, {SetFlag(SECRETS[i].key)}) == c
    ensures Strip(Merge(c, Object(Redact(c)))) == c
  {
    RedactedIsPart(c);
    PartMerges(c, Object(Redact(c)), FlagPlaces(|SECRETS|));
    AgreeAfterStrip(c, Object(Merge(c, Object(Redact(c)))), |SECRETS|);
    assert FlagPlaces(|SECRETS|) - FlagPlaces(|SECRETS|) == {};
    AgreeNowhere(c, Object(Strip(Merge(c, Object(Redact(c))))));
  }

  // ---- The same code as it runs, key by key and item by item ----

  /** The target with some keys of the patch merged. */
  function Overlay(target: Fields, patch: Json, done: set<Key>): Fields
    requires patch.Object?
  {
    map k | k in target.Keys + (set k | k in patch.fields && !k.Reserved? && k in done) ::
      if k in patch.fields && !k.Reserved? && k in done then MergeValue(k, Get(target, k), patch.fields[k])
      else target[k]
  }

  lemma {:induction false} OverlayEnds(target: Fields, patch: Json)
    requires patch.Object?
    ensures Overlay(target, patch, {}) == target
    ensures Overlay(target, patch, patch.fields.Keys) == Merge(target, patch)
  {
  }

  lemma {:induction false} OverlayStep(target: Fields, patch: Json, done: set<Key>, key: Key)
    requires patch.Object? && key in patch.fields && key !in done
    ensures Get(Overlay(target, patch, done), key) == Get(target, key)
    ensures Overlay(target, patch, done + {key}) ==
            if key.Reserved? then Overlay(target, patch, done)
            else Overlay(target, patch, done)[key := MergeValue(key, Get(target, key), patch.fields[key])]
  {
  }

  method MergeConfig(target: Fields, patch: Json) returns (merged: Fields)
    requires patch.Object?
    ensures merged == Merge(target, patch)
    decreases patch, 0
  {
    merged := target;
    var rest := patch.fields.Keys;
    ghost var done: set<Key> := {};
    OverlayEnds(target, patch);
    while rest != {}
      invariant done !! rest && done + rest == patch.fields.Keys && merged == Overlay(target, patch, done)
      decreases |rest|
    {
      var key :| key in rest;
      OverlayStep(target, patch, done, key);
      rest := rest - {key};
      done := done + {key};
      if key.Reserved? {
        continue;
      }
      var value := MergeOne(key, Get(merged, key), patch.fields[key]);
      merged := merged[key := value];
    }
    assert done == patch.fields.Keys;
  }

  method MergeOne(key: Key, was: Option<Json>, v: Json) returns (value: Json)
    ensures value == MergeValue(key, was, v)
    decreases v, 1
  {
    if v.Array? && (key == Groups || key == Accounts) {
      var existing := ItemsOf(was);
      var items: seq<Json> := [];
      for n := 0 to |v.items|
        invariant items == MergeItems(existing, v, n)
      {
        if !v.items[n].Object? {
          items := items + [v.items[n]];
          continue;
        }
        var merged := MergeConfig(Lookup(existing, IdOf(v.items[n].fields)), v.items[n]);
        merged := merged - {HasMonitorAccount, HasForwardAccount};
        items := items + [Object(merged)];
      }
      return Array(items);
    }
    if v.Object? {
      var merged := MergeConfig(FieldsOf(was), v);
      return Object(merged);
    }
    value := v;
  }

  method StripPresenceFlags(config: Fields) returns (stripped: Fields)
    ensures stripped == Strip(config)
  {
    stripped := config;
    for n := 0 to |SECRETS|
      invariant stripped == StripFlags(config, n)
    {
      stripped := DeleteAt(stripped, SECRETS[n].path, {SetFlag(SECRETS[n].key)});
    }
  }

  method RedactConfig(config: Fields) returns (safe: Fields)
    ensures safe == Redact(config)
  {
    safe := config;
    for n := 0 to |SECRETS|
      invariant safe == HideSecrets(config, n)
    {
      safe := HideAt(safe, SECRETS[n].path, SECRETS[n]);
    }
    safe := DeleteAt(safe, [Web], {Password, PasswordHash});
    if Accounts in safe && safe[Accounts].Array? {
      var shown := ShowAccounts(safe[Accounts].items);
      safe := safe[Accounts := Array(shown)];
    }
    if Groups in safe && safe[Groups].Array? {
      var shown := ShowGroups(safe[Groups].items);
      safe := safe[Groups := Array(shown)];
    }
  }

  method ShowAccounts(accounts: seq<Json>) returns (shown: seq<Json>)
    ensures shown == ShowItems(accounts, ShownAccount)
  {
    shown := [];
    for i := 0 to |accounts|
      invariant |shown| == i && forall j :: 0 <= j < i ==> shown[j] == ShownAccount(accounts[j])
    {
      var account := if accounts[i].Object? then accounts[i].fields else map[];
      var item: Fields := map[];
      if Id in account {
        item := item[Id := account[Id]];
      }
      if Name in account {
        item := item[Name := account[Name]];
      }
      if Username in account {
        item := item[Username := account[Username]];
      }
      assert item == ShownAccount(accounts[i]).fields;
      shown := shown + [Object(item)];
    }
  }

  method ShowGroups(groups: seq<Json>) returns (shown: seq<Json>)
    ensures shown == ShowItems(groups, ShownGroup)
  {
    shown := [];
    for i := 0 to |groups|
      invariant |shown| == i && forall j :: 0 <= j < i ==> shown[j] == ShownGroup(groups[j])
    {
      shown := shown + [ShownGroup(groups[i])];
    }
  }
}
