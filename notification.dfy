/**
 * The front end's notification view-model: a record built from the server's JSON whose
 * `details` are re-keyed to camelCase, with the getters the notification UI reads.
 */
module Notifications {
  import opened Wrappers
  import opened Strings
  import opened JsonValues

  /** `json.details`: an object, as its entries in iteration order, or a value that is no object. */
  datatype DetailsJson = DetailsObject(entries: seq<(string, Json)>) | NotAnObject

  /** The notification JSON the server sends (`undefined` fields are `None`). */
  datatype NotificationJson = NotificationJson(
    id: int,
    objectType: string,
    createdAt: Option<string>,
    isRead: bool,
    name: Option<string>,
    objectId: Option<int>,
    sourceUserId: Option<int>,
    details: DetailsJson)

  /**
   * What the model takes from its surroundings: lodash `camelCase`, `categoryFromName`,
   * `osu.trans`, `newEmptyNotificationDetails()`, the current user's id and their
   * "show original beatmapset title" preference.
   */
  datatype Env = Env(
    camelCase: string -> string,
    categoryFromName: string -> string,
    trans: (string, map<string, Option<Json>>) -> string,
    emptyDetails: map<string, Json>,
    currentUserId: Option<int>,
    showOriginal: bool)

  datatype NotificationIdentity = NotificationIdentity(category: string, id: int, objectId: Option<int>, objectType: string)

  // ---------------------------------------------------------------- JavaScript values as text

  /** How a template literal renders a value (`None` is `undefined`). */
  function TemplateText(v: Option<Json>): string {
    if v.None? then "undefined" else JsText(v.value)
  }

  function JsText(v: Json): string
    decreases v
  {
    match v
    case JNull => "null"
    case JBool(b) => if b then "true" else "false"
    case JNum(n) => IntToString(n)
    case JStr(s) => s
    case JArr(items) => Join(",", seq(|items|, i requires 0 <= i < |items| => ElementText(items[i], v)))
    case JObj(_) => "[object Object]"
  }

  /** An array element inside `join(',')`: null renders as the empty string. */
  function ElementText(item: Json, whole: Json): string
    requires item < whole
    decreases whole, 0
  {
    if item == JNull then "" else JsText(item)
  }

  function OptionalNumber(n: Option<int>): Option<Json> {
    if n.None? then None else Some(JNum(n.value))
  }

  function OptionalString(s: Option<string>): Option<Json> {
    if s.None? then None else Some(JStr(s.value))
  }

  /** `osu.presence(v) != null`: defined, not null, not the empty string. */
  predicate Present(v: Option<Json>) {
    v.Some? && v.value != JNull && v.value != JStr("")
  }

  // ---------------------------------------------------------------- details

  /** `forEach(entries, (value, key) => details[camelCase(key)] = value)` on `base`. */
  function Rekey(base: map<string, Json>, entries: seq<(string, Json)>, camelCase: string -> string): map<string, Json> {
    if entries == [] then base
    else
      var e := entries[|entries| - 1];
      Rekey(base, entries[..|entries| - 1], camelCase)[camelCase(e.0) := e.1]
  }

  /** The camelCase forms of the entries' keys. */
  function CamelKeys(entries: seq<(string, Json)>, camelCase: string -> string): (r: set<string>)
    ensures forall i :: 0 <= i < |entries| ==> camelCase(entries[i].0) in r
    ensures forall k :: k in r ==> exists i :: 0 <= i < |entries| && camelCase(entries[i].0) == k
  {
    if entries == [] then {}
    else
      var init := entries[..|entries| - 1];
      assert forall i :: 0 <= i < |init| ==> init[i] == entries[i];
      CamelKeys(init, camelCase) + {camelCase(entries[|entries| - 1].0)}
  }

  /** The re-keyed details hold the defaults' keys and the camelCase form of every entry's key. */
  lemma {:induction false} RekeyKeys(base: map<string, Json>, entries: seq<(string, Json)>, camelCase: string -> string)
    ensures Rekey(base, entries, camelCase).Keys == base.Keys + CamelKeys(entries, camelCase)
  {
    if entries != [] {
      RekeyKeys(base, entries[..|entries| - 1], camelCase);
    }
  }

  /**
   * Each entry's value ends up under the camelCase form of its key unless a later entry has
   * a key with the same camelCase form, which then overwrites it.
   */
  lemma {:induction false} RekeyLaterWins(base: map<string, Json>, entries: seq<(string, Json)>,
                                          camelCase: string -> string, i: nat)
    requires i < |entries|
    requires forall j :: i < j < |entries| ==> camelCase(entries[j].0) != camelCase(entries[i].0)
    ensures camelCase(entries[i].0) in Rekey(base, entries, camelCase)
    ensures Rekey(base, entries, camelCase)[camelCase(entries[i].0)] == entries[i].1
  {
    var n := |entries| - 1;
    if i < n {
      var init := entries[..n];
      assert init[i] == entries[i];
      forall j | i < j < |init|
        ensures camelCase(init[j].0) != camelCase(init[i].0)
      {
        assert init[j] == entries[j];
      }
      RekeyLaterWins(base, init, camelCase, i);
    }
  }

  /** A default whose key no entry camelCases to keeps its value. */
  lemma {:induction false} RekeyKeepsDefaults(base: map<string, Json>, entries: seq<(string, Json)>,
                                              camelCase: string -> string, k: string)
    requires k in base
    requires forall j :: 0 <= j < |entries| ==> camelCase(entries[j].0) != k
    ensures k in Rekey(base, entries, camelCase) && Rekey(base, entries, camelCase)[k] == base[k]
  {
    if entries != [] {
      var init := entries[..|entries| - 1];
      forall j | 0 <= j < |init|
        ensures camelCase(init[j].0) != k
      {
        assert init[j] == entries[j];
      }
      RekeyKeepsDefaults(base, init, camelCase, k);
    }
  }

  /** The details after `updateFromJson`: fresh defaults, re-keyed from an object payload. */
  function DetailsFrom(details: DetailsJson, env: Env): map<string, Json> {
    if details.NotAnObject? then env.emptyDetails else Rekey(env.emptyDetails, details.entries, env.camelCase)
  }

  /** The value of a key of a JavaScript object given by its entries (the last one wins). */
  function EntryValue(entries: seq<(string, Json)>, key: string): Option<Json> {
    if entries == [] then None
    else if entries[|entries| - 1].0 == key then Some(entries[|entries| - 1].1)
    else EntryValue(entries[..|entries| - 1], key)
  }

  /** `json.details.reply_to?.user_id`. */
  function ReplyToUserId(entries: seq<(string, Json)>): Option<Json> {
    match EntryValue(entries, "reply_to")
    case Some(JObj(fields)) => Lookup(fields, "user_id")
    case _ => None
  }

  /** A new comment that replies to the current user (compared with `===`). */
  predicate RepliesToCurrentUser(json: NotificationJson, env: Env) {
    && json.details.DetailsObject?
    && json.name == Some("comment_new")
    && ReplyToUserId(json.details.entries) == OptionalNumber(env.currentUserId)
  }

  /** The name after `updateFromJson`. */
  function UpdatedName(json: NotificationJson, env: Env): Option<string> {
    if RepliesToCurrentUser(json, env) then Some("comment_reply") else json.name
  }

  /**
   * The name changes exactly for a new comment whose `reply_to.user_id` is the current
   * user's id, and then only from `comment_new` to `comment_reply`.
   */
  lemma RenameOnlyFromCommentNew(json: NotificationJson, env: Env)
    ensures UpdatedName(json, env) != json.name <==> RepliesToCurrentUser(json, env)
    ensures UpdatedName(json, env) != json.name ==>
      json.name == Some("comment_new") && UpdatedName(json, env) == Some("comment_reply")
  {
  }

  /** A re-keyed payload key holds the value of the last entry whose key camelCases to it. */
  lemma DetailsFieldFromPayload(entries: seq<(string, Json)>, env: Env, key: string, i: nat)
    requires i < |entries| && env.camelCase(entries[i].0) == key
    requires forall j :: i < j < |entries| ==> env.camelCase(entries[j].0) != key
    ensures Lookup(DetailsFrom(DetailsObject(entries), env), key) == Some(entries[i].1)
  {
    RekeyLaterWins(env.emptyDetails, entries, env.camelCase, i);
  }

  /** A key no payload entry camelCases to keeps its default, or stays undefined. */
  lemma DetailsFieldDefault(entries: seq<(string, Json)>, env: Env, key: string)
    requires forall j :: 0 <= j < |entries| ==> env.camelCase(entries[j].0) != key
    ensures Lookup(DetailsFrom(DetailsObject(entries), env), key) == Lookup(env.emptyDetails, key)
  {
    if key in env.emptyDetails {
      RekeyKeepsDefaults(env.emptyDetails, entries, env.camelCase, key);
    } else {
      RekeyKeys(env.emptyDetails, entries, env.camelCase);
    }
  }

  /** The `title` getter on given details: the original-language title when preferred and present. */
  function TitleOf(details: map<string, Json>, showOriginal: bool): Option<Json> {
    if showOriginal && Present(Lookup(details, "titleUnicode")) then Lookup(details, "titleUnicode")
    else Lookup(details, "title")
  }

  /** Without the preference the title is the payload's last `title`-keyed entry. */
  lemma TitleFromPayload(entries: seq<(string, Json)>, env: Env, i: nat)
    requires !env.showOriginal
    requires i < |entries| && env.camelCase(entries[i].0) == "title"
    requires forall j :: i < j < |entries| ==> env.camelCase(entries[j].0) != "title"
    ensures TitleOf(DetailsFrom(DetailsObject(entries), env), env.showOriginal) == Some(entries[i].1)
  {
    DetailsFieldFromPayload(entries, env, "title", i);
  }

  /** With the preference, a present last `titleUnicode`-keyed entry of the payload is the title. */
  lemma OriginalTitleFromPayload(entries: seq<(string, Json)>, env: Env, i: nat)
    requires env.showOriginal
    requires i < |entries| && env.camelCase(entries[i].0) == "titleUnicode"
    requires forall j :: i < j < |entries| ==> env.camelCase(entries[j].0) != "titleUnicode"
    requires Present(Some(entries[i].1))
    ensures TitleOf(DetailsFrom(DetailsObject(entries), env), env.showOriginal) == Some(entries[i].1)
  {
    DetailsFieldFromPayload(entries, env, "titleUnicode", i);
  }

  /**
   * Without the preference `titleUnicode` is ignored. With it, an absent, null or empty
   * `titleUnicode` falls back to `title` too.
   */
  lemma TitleIgnoresUnicode(details: map<string, Json>, showOriginal: bool, v: Json)
    ensures TitleOf(details["titleUnicode" := v], false) == TitleOf(details, false)
    ensures !Present(Lookup(details, "titleUnicode")) ==> TitleOf(details, showOriginal) == Lookup(details, "title")
  {
    assert Lookup(details["titleUnicode" := v], "title") == Lookup(details, "title");
  }

  /** Rendered object ids tell objects apart: an id renders as a numeral, a missing one as `undefined`. */
  lemma ObjectIdTextInjective(x: Option<int>, y: Option<int>)
    requires TemplateText(OptionalNumber(x)) == TemplateText(OptionalNumber(y))
    ensures x == y
  {
    if x.Some? && y.Some? {
      IntToStringInjective(x.value, y.value);
    }
  }

  lemma CancelAround(a: string, b: string, c: string, d: string, e: string)
    requires a + b + c == a + d + e && |c| == |e|
    ensures b == d
  {
    var l, r := a + b + c, a + d + e;
    assert |b| == |d|;
    assert b == l[|a|..|a| + |b|];
    assert d == r[|a|..|a| + |d|];
  }

  // ---------------------------------------------------------------- the view-model

  class Notification {
    const id: int
    const objectType: string
    var createdAtJson: Option<string>
    var details: map<string, Json>
    var isMarkingAsRead: bool
    var isRead: bool
    var name: Option<string>
    var objectId: Option<int>
    var sourceUserId: Option<int>

    constructor (id: int, objectType: string, env: Env)
      ensures this.id == id && this.objectType == objectType
      ensures details == env.emptyDetails && !isMarkingAsRead && !isRead
      ensures createdAtJson.None? && name.None? && objectId.None? && sourceUserId.None?
      ensures CanMarkRead() <==> id > 0
    {
      this.id := id;
      this.objectType := objectType;
      details := env.emptyDetails;
      isMarkingAsRead, isRead := false, false;
      createdAtJson, name, objectId, sourceUserId := None, None, None, None;
    }

    /** A notification can be marked read when it is stored (positive id) and still unread. */
    function CanMarkRead(): bool
      reads this
    {
      id > 0 && !isRead
    }

    /** The category of the notification's name; a missing name is categorised as ''. */
    function Category(env: Env): string
      reads this
    {
      env.categoryFromName(name.GetOr(""))
    }

    /** A notification without a name falls in the same category as one named ''. */
    static lemma CategoryOfMissingName(a: Notification, b: Notification, env: Env)
      requires a.name.None? && b.name == Some("")
      ensures a.Category(env) == b.Category(env)
    {
    }

    function Identity(env: Env): NotificationIdentity
      reads this
    {
      NotificationIdentity(Category(env), id, objectId, objectType)
    }

    /** The title: the original-language title when preferred and present, else `details.title`. */
    function Title(env: Env): Option<Json>
      reads this
    {
      TitleOf(details, env.showOriginal)
    }

    /** The translation key of a channel notification's group message. */
    function MessageGroupKey(env: Env): string
      reads this
    {
      "notifications.item." + objectType + "." + Category(env) + "."
        + TemplateText(Lookup(details, "type")) + "." + TemplateText(OptionalString(name)) + "_group"
    }

    /** Channel notifications translate their group key; every other kind shows its title. */
    function MessageGroup(env: Env): Option<Json>
      reads this
    {
      if objectType == "channel" then
        Some(JStr(env.trans(MessageGroupKey(env), map["title" := Title(env), "username" := Lookup(details, "username")])))
      else Title(env)
    }

    /** The key notifications are stacked under: object type, object id and category. */
    function StackId(env: Env): string
      reads this
    {
      objectType + "-" + TemplateText(OptionalNumber(objectId)) + "-" + Category(env)
    }

    /**
     * Only channel notifications translate a group key. Every other kind shows its title as
     * its group message.
     */
    static lemma MessageGroupIsTitleUnlessChannel(n: Notification, env: Env)
      ensures n.objectType != "channel" ==> n.MessageGroup(env) == n.Title(env)
      ensures n.objectType == "channel" ==> n.MessageGroup(env).Some? && n.MessageGroup(env).value.JStr?
    {
    }

    /** Notifications with the same identity are stacked together. */
    static lemma SameIdentitySameStack(a: Notification, b: Notification, env: Env)
      requires a.Identity(env) == b.Identity(env)
      ensures a.StackId(env) == b.StackId(env)
      ensures a.id == b.id
    {
    }

    /** Notifications of one object type and category share a stack only if they are about the same object. */
    static lemma StackIdSeparatesObjects(a: Notification, b: Notification, env: Env)
      requires a.objectType == b.objectType && a.Category(env) == b.Category(env)
      requires a.StackId(env) == b.StackId(env)
      ensures a.objectId == b.objectId
    {
      var pre, cat := a.objectType + "-", "-" + a.Category(env);
      assert a.StackId(env) == pre + TemplateText(OptionalNumber(a.objectId)) + cat;
      assert b.StackId(env) == pre + TemplateText(OptionalNumber(b.objectId)) + cat;
      CancelAround(pre, TemplateText(OptionalNumber(a.objectId)), cat, TemplateText(OptionalNumber(b.objectId)), cat);
      ObjectIdTextInjective(a.objectId, b.objectId);
    }

    /**
     * `updateFromJson`: copy the plain fields, replace the details with fresh defaults
     * re-keyed from the payload, and rename a new comment replying to the current user.
     */
    method UpdateFromJson(json: NotificationJson, env: Env)
      modifies this
      ensures createdAtJson == json.createdAt && isRead == json.isRead
      ensures objectId == json.objectId && sourceUserId == json.sourceUserId
      ensures name == UpdatedName(json, env)
      ensures details == DetailsFrom(json.details, env)
      ensures isMarkingAsRead == old(isMarkingAsRead)
      ensures CanMarkRead() <==> id > 0 && !json.isRead
    {
      createdAtJson := json.createdAt;
      isRead := json.isRead;
      name := json.name;
      objectId := json.objectId;
      sourceUserId := json.sourceUserId;

      details := env.emptyDetails;

      if json.details.DetailsObject? {
        var entries := json.details.entries;
        var i := 0;
        while i < |entries|
          invariant 0 <= i <= |entries|
          invariant details == Rekey(env.emptyDetails, entries[..i], env.camelCase)
          invariant createdAtJson == json.createdAt && isRead == json.isRead && name == json.name
          invariant objectId == json.objectId && sourceUserId == json.sourceUserId
          invariant isMarkingAsRead == old(isMarkingAsRead)
        {
          assert entries[..i + 1][..i] == entries[..i];
          details := details[env.camelCase(entries[i].0) := entries[i].1];
          i := i + 1;
        }
        assert entries[..i] == entries;

        if json.name == Some("comment_new") && ReplyToUserId(entries) == OptionalNumber(env.currentUserId) {
          name := Some("comment_reply");
        }
      }
    }

    /** `Notification.fromJson`: a new notification with the payload's id and object type, updated from it. */
    static method FromJson(json: NotificationJson, env: Env) returns (n: Notification)
      ensures fresh(n)
      ensures n.id == json.id && n.objectType == json.objectType
      ensures n.createdAtJson == json.createdAt && n.isRead == json.isRead && !n.isMarkingAsRead
      ensures n.objectId == json.objectId && n.sourceUserId == json.sourceUserId
      ensures n.name == UpdatedName(json, env)
      ensures n.details == DetailsFrom(json.details, env)
    {
      n := new Notification(json.id, json.objectType, env);
      n.UpdateFromJson(json, env);
    }
  }
}
