/** The post detail state (the `PostDetailState` part of state/post_state.py): the creation
    time shown for a post and its comments, the author check, the comment list and the edit
    toggle. `datetime.fromisoformat` followed by `strftime` is an oracle that either renders
    the normalised timestamp with a pattern or rejects it. */
module Post {
  import opened Wrappers
  import opened Strs

  /** `fromisoformat(text).strftime(pattern)`, or `None` where the parse raises `ValueError`. */
  type DateRender = (string, string) -> Option<string>

  const PostPattern := "%Y년 %m월 %d일 %H:%M"
  const CommentPattern := "%Y-%m-%d %H:%M"
  const DateFormatError := "날짜 형식 오류"
  const FormattedKey := "formatted_created_at"

  /** The rewriting done before parsing: a trailing `Z` becomes `+00:00`; then, when there is a
      `.`, the fractional seconds go: with a `+` the text is split there (more than one `+` makes
      the two-name unpacking raise) and the part before it is cut at its first `.`; without a
      `+` everything from the first `.` is dropped. */
  function Normalize(s: string): Result<string> {
    DropFraction(ZuluOffset(s))
  }

  /** A trailing `Z` written as the `+00:00` offset. */
  function ZuluOffset(s: string): string {
    if EndsWith(s, "Z") then s[..|s| - 1] + "+00:00" else s
  }

  /** The fractional seconds removed, as described for `Normalize`. */
  function DropFraction(z: string): Result<string> {
    if '.' !in z then Ok(z)
    else if '+' in z then
      var parts := Split(z, '+');
      if |parts| != 2 then Err("too many values to unpack (expected 2)")
      else Ok(Split(parts[0], '.')[0] + "+" + parts[1])
    else Ok(Split(z, '.')[0])
  }

  /** Whether the text ends in `Z` is decided by its last character. */
  lemma EndsWithZ(s: string)
    ensures EndsWith(s, "Z") <==> |s| >= 1 && s[|s| - 1] == 'Z'
  {
    if |s| >= 1 {
      assert s[|s| - 1..] == [s[|s| - 1]];
    }
  }

  /** Splitting `a + [c] + b` when `a` has no `c` and `b` has none either. */
  lemma SplitTwo(a: string, b: string, c: char)
    requires c !in a && c !in b
    ensures Split(a + [c] + b, c) == [a, b]
  {
    assert a + [c] + b == Join([a, b], [c]);
    SplitJoin([a, b], c);
  }

  /** The piece before the first `c`. */
  lemma SplitFirst(a: string, b: string, c: char)
    requires c !in a
    ensures Split(a + [c] + b, c)[0] == a
  {
    var s := a + [c] + b;
    assert s[|a|] == c;
    assert s[..|a|] == a;
    assert IndexOf(s, c) == Some(|a|);
  }

  /** Text whose last character is not `Z` is not rewritten. */
  lemma NoZulu(s: string)
    requires s == [] || s[|s| - 1] != 'Z'
    ensures ZuluOffset(s) == s
  {
    EndsWithZ(s);
  }

  /** A time with fractional seconds and a `+` offset keeps the offset and loses the fraction. */
  lemma NormalizeKeepsOffset(time: string, fraction: string, offset: string)
    requires '.' !in time && '+' !in time && '+' !in fraction && '+' !in offset
    requires !EndsWith(offset, "Z")
    ensures Normalize(time + "." + fraction + "+" + offset) == Ok(time + "+" + offset)
  {
    var s := time + "." + fraction + "+" + offset;
    var before := time + "." + fraction;
    assert s == before + ['+'] + offset;
    EndsWithZ(offset);
    if offset == [] {
      assert s[|s| - 1] == '+';
    } else {
      assert s[|s| - 1] == offset[|offset| - 1];
    }
    NoZulu(s);
    DropFractionOffset(time, fraction, offset);
  }

  /** The fraction goes and the offset stays. */
  lemma DropFractionOffset(time: string, fraction: string, offset: string)
    requires '.' !in time && '+' !in time && '+' !in fraction && '+' !in offset
    ensures DropFraction(time + "." + fraction + "+" + offset) == Ok(time + "+" + offset)
  {
    var s := time + "." + fraction + "+" + offset;
    var before := time + "." + fraction;
    assert s == before + ['+'] + offset;
    assert '.' in s by { assert s[|time|] == '.'; }
    assert '+' in s by { assert s[|before|] == '+'; }
    assert '+' !in before;
    SplitTwo(before, offset, '+');
    assert before == time + ['.'] + fraction;
    SplitFirst(time, fraction, '.');
  }

  /** A UTC time written with `Z` gets the `+00:00` offset, fraction removed. */
  lemma NormalizeZulu(time: string, fraction: string)
    requires '.' !in time && '+' !in time && '+' !in fraction
    ensures Normalize(time + "." + fraction + "Z") == Ok(time + "+00:00")
  {
    var s := time + "." + fraction + "Z";
    EndsWithZ(s);
    assert s[..|s| - 1] == time + "." + fraction;
    var z := time + "." + fraction + "+" + "00:00";
    assert ZuluOffset(s) == z;
    DropFractionOffset(time, fraction, "00:00");
    assert time + "+" + "00:00" == time + "+00:00";
  }

  /** Without any `+`, everything from the first `.` is dropped, a `-` offset included. */
  lemma NormalizeNoPlus(time: string, rest: string)
    requires '.' !in time && '+' !in time && '+' !in rest && !EndsWith(rest, "Z")
    ensures Normalize(time + "." + rest) == Ok(time)
  {
    var s := time + "." + rest;
    EndsWithZ(rest);
    if rest == [] {
      assert s[|s| - 1] == '.';
    } else {
      assert s[|s| - 1] == rest[|rest| - 1];
    }
    NoZulu(s);
    assert '.' in s by { assert s[|time|] == '.'; }
    assert s == time + ['.'] + rest;
    SplitFirst(time, rest, '.');
  }

  /** Text without a `.` and without a trailing `Z` is left as it is. */
  lemma NormalizeNoFraction(s: string)
    requires '.' !in s && !EndsWith(s, "Z")
    ensures Normalize(s) == Ok(s)
  {
  }

  /** Two `+` signs next to a `.` make the unpacking fail. */
  lemma NormalizeTwoPlus(a: string, b: string, c: string)
    requires '.' in a && '+' !in a && '+' !in b && '+' !in c && !EndsWith(c, "Z")
    ensures Normalize(a + "+" + b + "+" + c).Err?
  {
    var s := a + "+" + b + "+" + c;
    EndsWithZ(c);
    if c == [] {
      assert s[|s| - 1] == '+';
    } else {
      assert s[|s| - 1] == c[|c| - 1];
    }
    NoZulu(s);
    DropFractionTwoPlus(a, b, c);
  }

  lemma DropFractionTwoPlus(a: string, b: string, c: string)
    requires '.' in a && '+' !in a && '+' !in b && '+' !in c
    ensures DropFraction(a + "+" + b + "+" + c).Err?
  {
    var s := a + "+" + b + "+" + c;
    var i :| 0 <= i < |a| && a[i] == '.';
    assert s[i] == '.';
    assert s == Join([a, b, c], "+") by {
      assert [a, b, c][1..] == [b, c];
      assert [b, c][1..] == [c];
      assert Join([b, c], "+") == b + "+" + c;
      assert Join([a, b, c], "+") == a + "+" + (b + "+" + c);
    }
    SplitJoin([a, b, c], '+');
    assert s[|a|] == '+';
  }

  /** The text shown for a timestamp: `""` when there is none; the rendering with `pattern` or
      the date-format message when the parse rejects it; an error when the unpacking raises. */
  function FormatTimestamp(createdAt: Option<string>, pattern: string, render: DateRender): Result<string> {
    match createdAt
    case None => Ok("")
    case Some(s) =>
      if s == "" then Ok("")
      else
        var n :- Normalize(s);
        match render(n, pattern)
        case Some(t) => Ok(t)
        case None => Ok(DateFormatError)
  }

  /** The `created_at` of a record: missing (or JSON null) is `None`. */
  function CreatedAt(record: map<string, string>): Option<string> {
    if "created_at" in record then Some(record["created_at"]) else None
  }

  /** A missing or empty timestamp shows as `""`; a rejected one as the date-format message. */
  lemma FormatTimestampSpec(createdAt: Option<string>, pattern: string, render: DateRender)
    ensures createdAt.None? || createdAt == Some("") ==> FormatTimestamp(createdAt, pattern, render) == Ok("")
    ensures createdAt.Some? && createdAt.value != "" && Normalize(createdAt.value).Ok? ==>
      FormatTimestamp(createdAt, pattern, render)
        == Ok(render(Normalize(createdAt.value).value, pattern).GetOr(DateFormatError))
    ensures createdAt.Some? && createdAt.value != "" && Normalize(createdAt.value).Err? ==>
      FormatTimestamp(createdAt, pattern, render).Err?
  {
  }

  /** The comment list after formatting: the same comments in the same order, each with its
      `formatted_created_at`; the first comment whose timestamp raises fails the whole load. */
  function FormatComments(comments: seq<map<string, string>>, render: DateRender): Result<seq<map<string, string>>> {
    if comments == [] then Ok([])
    else
      var init :- FormatComments(comments[..|comments| - 1], render);
      var last := comments[|comments| - 1];
      var f :- FormatTimestamp(CreatedAt(last), CommentPattern, render);
      Ok(init + [last[FormattedKey := f]])
  }

  lemma {:induction false} FormatCommentsSpec(comments: seq<map<string, string>>, render: DateRender)
    ensures var r := FormatComments(comments, render);
      && (r.Ok? <==> forall k :: 0 <= k < |comments| ==> FormatTimestamp(CreatedAt(comments[k]), CommentPattern, render).Ok?)
      && (r.Ok? ==> |r.value| == |comments|)
      && (r.Ok? ==> forall k :: 0 <= k < |comments| ==>
            r.value[k] == comments[k][FormattedKey := FormatTimestamp(CreatedAt(comments[k]), CommentPattern, render).value])
  {
    if comments != [] {
      var init := comments[..|comments| - 1];
      FormatCommentsSpec(init, render);
      assert forall k :: 0 <= k < |init| ==> init[k] == comments[k];
    }
  }

  /** `is_author`: authenticated, a user, a non-empty post, and the user's id equal to the post's
      `user_id` (a post without one has no author). */
  function IsAuthor(isAuthenticated: bool, userId: Option<string>, post: map<string, string>): (r: bool)
    ensures r <==> isAuthenticated && userId.Some? && post != map[] && "user_id" in post
                   && post["user_id"] == userId.value
  {
    if !isAuthenticated || userId.None? || post == map[] then false
    else "user_id" in post && userId.value == post["user_id"]
  }

  class PostDetailState {
    var post: map<string, string>
    var isLoading: bool
    var isEditing: bool
    var comments: seq<map<string, string>>
    var newCommentContent: string

    constructor()
      ensures post == map[] && isLoading && !isEditing && comments == [] && newCommentContent == ""
    {
      post, isLoading, isEditing, comments, newCommentContent := map[], true, false, [], "";
    }

    /** `no_comments` */
    function NoComments(): (r: bool)
      reads this
      ensures r <==> comments == []
    {
      |comments| == 0
    }

    /** `formatted_created_at` of the post. */
    function FormattedCreatedAt(render: DateRender): Result<string>
      reads this
    {
      FormatTimestamp(CreatedAt(post), PostPattern, render)
    }

    /** `toggle_edit` flips the edit mode, so two toggles restore it. */
    method ToggleEdit()
      modifies this
      ensures isEditing == !old(isEditing)
      ensures post == old(post) && comments == old(comments) && isLoading == old(isLoading)
      ensures newCommentContent == old(newCommentContent)
    {
      isEditing := !isEditing;
    }

    /** `load_comments`: the fetched comments, each given its formatted time, replace the list;
        a failed query or a timestamp that raises leaves the list as it was. */
    method LoadComments(fetched: Result<seq<map<string, string>>>, render: DateRender)
      modifies this
      ensures fetched.Err? ==> comments == old(comments)
      ensures fetched.Ok? ==>
        match FormatComments(fetched.value, render)
        case Ok(cs) => comments == cs
        case Err(_) => comments == old(comments)
      ensures post == old(post) && isEditing == old(isEditing) && isLoading == old(isLoading)
      ensures newCommentContent == old(newCommentContent)
    {
      if fetched.Err? {
        return;
      }
      var data := fetched.value;
      var formatted: seq<map<string, string>> := [];
      var i := 0;
      while i < |data|
        invariant 0 <= i <= |data|
        invariant FormatComments(data[..i], render) == Ok(formatted)
      {
        assert data[..i + 1][..i] == data[..i];
        var comment := data[i];
        var f := FormatTimestamp(CreatedAt(comment), CommentPattern, render);
        if f.Err? {
          FormatCommentsFailureSticks(data, i + 1, render);
          return;
        }
        formatted := formatted + [comment[FormattedKey := f.value]];
        i := i + 1;
      }
      assert data[..i] == data;
      comments := formatted;
    }
  }

  /** Once a prefix of the comments fails to format, the whole list does. */
  lemma {:induction false} FormatCommentsFailureSticks(cs: seq<map<string, string>>, n: nat, render: DateRender)
    requires n <= |cs|
    requires FormatComments(cs[..n], render).Err?
    ensures FormatComments(cs, render).Err?
    decreases |cs| - n
  {
    if n < |cs| {
      assert cs[..n + 1][..n] == cs[..n];
      FormatCommentsFailureSticks(cs, n + 1, render);
    } else {
      assert cs[..n] == cs;
    }
  }
}
