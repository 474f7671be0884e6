/** One recipe row: its transitions, and the search document built from it. */
module Recipes {
  import opened Wrappers

  datatype Status = Candidate | Active | Dismissed | Superseded | Retired

  datatype Editor = Agent | User

  datatype Rejection = NotFound | NotCandidate | NotActive | NotDeletable

  /** A recipe row. `body` stands for the columns no transition and no document looks at. */
  datatype Row = Row(
    id: string, userId: string, status: Status,
    title: string, intent: string, description: string, summaryMd: string,
    useWhen: seq<string>, touchedFiles: seq<Option<string>>, body: string, language: string,
    rev: nat, parentId: Option<string>, sourceJobId: Option<string>,
    userEdited: bool, lastEditedBy: Editor,
    createdAt: int, updatedAt: int, resolvedAt: Option<int>, deletedAt: Option<int>)

  datatype Revision = Revision(title: Option<string>, intent: Option<string>, description: Option<string>, summaryMd: Option<string>)

  datatype Document = Document(
    recipeId: string, userId: string, title: string, intent: string, description: string, useWhen: seq<string>,
    summaryMd: string, touchedFiles: seq<string>, status: Status, userEdited: bool, rev: nat, updatedAt: int)

  /** Only the entries that carry a path. */
  function TouchedPaths(files: seq<Option<string>>): (paths: seq<string>)
    ensures forall p :: p in paths <==> Some(p) in files
  {
    if files == [] then []
    else (if files[0].Some? then [files[0].value] else []) + TouchedPaths(files[1..])
  }

  function DocumentOf(row: Row): Document {
    Document(row.id, row.userId, row.title, row.intent, row.description, row.useWhen, row.summaryMd,
      TouchedPaths(row.touchedFiles), row.status, row.userEdited, row.rev, row.updatedAt)
  }

  /** What a caller may ask of a recipe it owns; `Supersede` comes only with the acceptance of a child. */
  datatype Action = Accept | Dismiss | Retire | Supersede | Delete | Edit(revision: Revision)

  function Revised(column: Option<string>, current: string): string {
    if column.Some? then column.value else current
  }

  function Edited(row: Row, revision: Revision, now: int): Row {
    row.(title := Revised(revision.title, row.title), intent := Revised(revision.intent, row.intent),
      description := Revised(revision.description, row.description), summaryMd := Revised(revision.summaryMd, row.summaryMd),
      userEdited := true, lastEditedBy := User, rev := row.rev + 1, updatedAt := now)
  }

  function Transition(row: Row, action: Action, now: int): Result<Row, Rejection> {
    match action
    case Accept =>
      if row.status != Candidate then Err(NotCandidate)
      else Ok(row.(status := Active, updatedAt := now, resolvedAt := Some(now)))
    case Dismiss =>
      if row.status != Candidate then Err(NotCandidate)
      else Ok(row.(status := Dismissed, updatedAt := now, resolvedAt := Some(now)))
    case Retire =>
      if row.status != Active then Err(NotActive) else Ok(row.(status := Retired, updatedAt := now))
    case Supersede => Ok(row.(status := Superseded, updatedAt := now, resolvedAt := Some(now)))
    case Delete =>
      if row.status != Dismissed && row.status != Retired then Err(NotDeletable)
      else Ok(row.(deletedAt := Some(now), updatedAt := now))
    case Edit(revision) =>
      if row.status != Active then Err(NotActive)
      else Ok(Edited(row, revision, now))
  }

  lemma EditIs(row: Row, revision: Revision, now: int)
    ensures Transition(row, Edit(revision), now) == if row.status != Active then Err(NotActive) else Ok(Edited(row, revision, now))
  {
  }

  class Recipe {
    const id: string
    const userId: string
    var status: Status
    var title: string
    var intent: string
    var description: string
    var summaryMd: string
    const useWhen: seq<string>
    const touchedFiles: seq<Option<string>>
    const body: string
    const language: string
    var rev: nat
    const parentId: Option<string>
    const sourceJobId: Option<string>
    var userEdited: bool
    var lastEditedBy: Editor
    const createdAt: int
    var updatedAt: int
    var resolvedAt: Option<int>
    var deletedAt: Option<int>

    constructor (row: Row)
      ensures AsRow() == row
    {
      id, userId, status := row.id, row.userId, row.status;
      title, intent, description, summaryMd := row.title, row.intent, row.description, row.summaryMd;
      useWhen, touchedFiles, body, language := row.useWhen, row.touchedFiles, row.body, row.language;
      rev, parentId, sourceJobId := row.rev, row.parentId, row.sourceJobId;
      userEdited, lastEditedBy := row.userEdited, row.lastEditedBy;
      createdAt, updatedAt, resolvedAt, deletedAt := row.createdAt, row.updatedAt, row.resolvedAt, row.deletedAt;
    }

    function AsRow(): Row
      reads this
    {
      Row(id, userId, status, title, intent, description, summaryMd, useWhen, touchedFiles, body, language,
        rev, parentId, sourceJobId, userEdited, lastEditedBy, createdAt, updatedAt, resolvedAt, deletedAt)
    }

    /** The row after an action, or the row as it was and the reason it was refused. */
    ghost predicate Outcome(before: Row, action: Action, now: int, rejection: Option<Rejection>)
      reads this
    {
      match Transition(before, action, now)
      case Ok(after) => rejection == None && AsRow() == after
      case Err(reason) => rejection == Some(reason) && AsRow() == before
    }

    method Accept(now: int) returns (rejection: Option<Rejection>)
      modifies this
      ensures Outcome(old(AsRow()), Action.Accept, now, rejection)
    {
      if status != Candidate {
        return Some(NotCandidate);
      }
      status := Active;
      updatedAt := now;
      resolvedAt := Some(now);
      return None;
    }

    method Dismiss(now: int) returns (rejection: Option<Rejection>)
      modifies this
      ensures Outcome(old(AsRow()), Action.Dismiss, now, rejection)
    {
      if status != Candidate {
        return Some(NotCandidate);
      }
      status := Dismissed;
      updatedAt := now;
      resolvedAt := Some(now);
      return None;
    }

    method Retire(now: int) returns (rejection: Option<Rejection>)
      modifies this
      ensures Outcome(old(AsRow()), Action.Retire, now, rejection)
    {
      if status != Active {
        return Some(NotActive);
      }
      status := Retired;
      updatedAt := now;
      return None;
    }

    method Supersede(now: int)
      modifies this
      ensures Outcome(old(AsRow()), Action.Supersede, now, None)
    {
      status := Superseded;
      updatedAt := now;
      resolvedAt := Some(now);
    }

    method Delete(now: int) returns (rejection: Option<Rejection>)
      modifies this
      ensures Outcome(old(AsRow()), Action.Delete, now, rejection)
    {
      if status != Dismissed && status != Retired {
        return Some(NotDeletable);
      }
      deletedAt := Some(now);
      updatedAt := now;
      return None;
    }

    method EditByUser(revision: Revision, now: int) returns (rejection: Option<Rejection>)
      modifies this
      ensures Outcome(old(AsRow()), Action.Edit(revision), now, rejection)
    {
      hide Transition, Revised;
      EditIs(AsRow(), revision, now);
      if status != Active {
        return Some(NotActive);
      }
      title := Revised(revision.title, title);
      intent := Revised(revision.intent, intent);
      description := Revised(revision.description, description);
      summaryMd := Revised(revision.summaryMd, summaryMd);
      userEdited := true;
      lastEditedBy := User;
      rev := rev + 1;
      updatedAt := now;
      return None;
    }
  }

  // ----- what every life of a row keeps

  /** A row the way a scan writes it and the transitions leave it. */
  predicate Sound(row: Row) {
    && (row.status == Candidate <==> row.resolvedAt == None)
    && (row.deletedAt.Some? ==> row.status == Dismissed || row.status == Retired)
    && (row.userEdited <==> row.lastEditedBy == User)
    && (row.status in {Candidate, Dismissed} ==> !row.userEdited)
  }

  /** The only moves between states. */
  predicate Moves(from: Status, to: Status) {
    match from
    case Candidate => to in {Candidate, Active, Dismissed, Superseded}
    case Active => to in {Active, Retired, Superseded}
    case Dismissed => to in {Dismissed, Superseded}
    case Retired => to in {Retired, Superseded}
    case Superseded => to == Superseded
  }

  /** The row after each action in turn; a refused action, or one on a deleted row, changes nothing. */
  function Lived(row: Row, actions: seq<(Action, int)>): Row {
    if actions == [] then row
    else
      var before := Lived(row, actions[..|actions| - 1]);
      var (action, now) := actions[|actions| - 1];
      if before.deletedAt.Some? then before
      else
        match Transition(before, action, now)
        case Ok(after) => after
        case Err(_) => before
  }

  function Edits(actions: seq<(Action, int)>): nat {
    if actions == [] then 0
    else Edits(actions[..|actions| - 1]) + if actions[|actions| - 1].0.Edit? then 1 else 0
  }

  /** The columns only a user's edit changes. */
  predicate SameText(a: Row, b: Row) {
    a.title == b.title && a.intent == b.intent && a.description == b.description && a.summaryMd == b.summaryMd
  }

  /** A candidate never comes back, a superseded row stays superseded, the version counts the edits that took, the text changes only by
      edits, and the time of resolution is set once, unless the row is superseded. */
  lemma {:induction false} LifeOfARow(row: Row, actions: seq<(Action, int)>)
    requires Sound(row)
    ensures var r := Lived(row, actions);
      && Sound(r) && (r.status == Candidate ==> row.status == Candidate) && (row.status == Superseded ==> r.status == Superseded)
      && r.id == row.id && r.userId == row.userId && r.parentId == row.parentId && r.sourceJobId == row.sourceJobId && r.createdAt == row.createdAt
      && row.rev <= r.rev <= row.rev + Edits(actions) && (r.rev > row.rev ==> r.userEdited)
      && (row.deletedAt.Some? ==> r == row)
      && (Edits(actions) == 0 ==> SameText(row, r))
      && (row.resolvedAt.Some? && r.status != Superseded ==> r.resolvedAt == row.resolvedAt)
  {
    if actions != [] {
      LifeOfARow(row, actions[..|actions| - 1]);
      var before := Lived(row, actions[..|actions| - 1]);
      if before.deletedAt == None {
        TransitionKeeps(before, actions[|actions| - 1].0, actions[|actions| - 1].1);
      }
    }
  }

  lemma TransitionKeeps(row: Row, action: Action, now: int)
    requires Sound(row) && row.deletedAt == None
    ensures match Transition(row, action, now)
      case Ok(after) =>
        && Sound(after) && Moves(row.status, after.status)
        && (after.rev == row.rev + (if action.Edit? then 1 else 0)) && (action.Edit? || after.userEdited == row.userEdited)
        && (action.Edit? ==> after.userEdited)
        && after.id == row.id && after.userId == row.userId && after.parentId == row.parentId
        && after.sourceJobId == row.sourceJobId && after.createdAt == row.createdAt
        && (action.Edit? || SameText(row, after)) && after.updatedAt == now
        && (row.resolvedAt.Some? && after.status != Superseded ==> after.resolvedAt == row.resolvedAt)
      case Err(_) => true
  {
  }

  // ----- what each action does, column by column

  /** Which state an action asks for, and what it says otherwise. */
  function Refusal(row: Row, action: Action): Option<Rejection> {
    match action
    case Accept => if row.status == Candidate then None else Some(NotCandidate)
    case Dismiss => if row.status == Candidate then None else Some(NotCandidate)
    case Retire => if row.status == Active then None else Some(NotActive)
    case Supersede => None
    case Delete => if row.status in {Dismissed, Retired} then None else Some(NotDeletable)
    case Edit(_) => if row.status == Active then None else Some(NotActive)
  }

  function Target(row: Row, action: Action): Status {
    match action
    case Accept => Active
    case Dismiss => Dismissed
    case Retire => Retired
    case Supersede => Superseded
    case _ => row.status
  }

  lemma TransitionMeans(row: Row, action: Action, now: int)
    ensures match Refusal(row, action)
      case Some(reason) => Transition(row, action, now) == Err(reason)
      case None =>
        && Transition(row, action, now).Ok?
        && var after := Transition(row, action, now).value;
          && after.status == Target(row, action) && after.updatedAt == now
          && after.resolvedAt == (if action in {Action.Accept, Action.Dismiss, Action.Supersede} then Some(now) else row.resolvedAt)
          && after.deletedAt == (if action == Action.Delete then Some(now) else row.deletedAt)
          && after.useWhen == row.useWhen && after.touchedFiles == row.touchedFiles && after.body == row.body && after.language == row.language
          && after.lastEditedBy == (if action.Edit? then User else row.lastEditedBy)
  {
  }

  // ----- the text of a row

  /** The edits that took. */
  function Taken(row: Row, actions: seq<(Action, int)>): seq<Revision> {
    if actions == [] then []
    else
      var before, action := Lived(row, actions[..|actions| - 1]), actions[|actions| - 1].0;
      Taken(row, actions[..|actions| - 1])
        + if action.Edit? && before.status == Active && before.deletedAt == None then [action.revision] else []
  }

  /** The last value given, or the one it had. */
  function LastGiven(given: seq<Option<string>>, had: string): string {
    if given == [] then had
    else if given[|given| - 1].Some? then given[|given| - 1].value
    else LastGiven(given[..|given| - 1], had)
  }

  function Column(edits: seq<Revision>, column: Revision -> Option<string>): (given: seq<Option<string>>)
    ensures |given| == |edits|
  {
    seq(|edits|, i requires 0 <= i < |edits| => column(edits[i]))
  }

  lemma LastGivenOne(edits: seq<Revision>, edit: Revision, column: Revision -> Option<string>, had: string)
    ensures LastGiven(Column(edits + [edit], column), had) ==
      if column(edit).Some? then column(edit).value else LastGiven(Column(edits, column), had)
  {
    var given := Column(edits + [edit], column);
    assert given[..|edits|] == Column(edits, column);
  }

  lemma TextStep(before: Row, action: Action, now: int)
    ensures action.Edit? && before.status == Active ==> Transition(before, action, now).Ok?
    ensures Transition(before, action, now).Ok? ==>
      var r, edit := Transition(before, action, now).value, if action.Edit? then action.revision else Revision(None, None, None, None);
      && r.title == (if edit.title.Some? then edit.title.value else before.title)
      && r.intent == (if edit.intent.Some? then edit.intent.value else before.intent)
      && r.description == (if edit.description.Some? then edit.description.value else before.description)
      && r.summaryMd == (if edit.summaryMd.Some? then edit.summaryMd.value else before.summaryMd)
      && r.rev == before.rev + (if action.Edit? then 1 else 0) && (action.Edit? ==> before.status == Active)
  {
  }

  /** Every text column holds what the last edit that took and named it gave, and the version counts the edits that took. */
  lemma {:induction false} TextOfARow(row: Row, actions: seq<(Action, int)>)
    ensures var r, edits := Lived(row, actions), Taken(row, actions);
      && r.title == LastGiven(Column(edits, (e: Revision) => e.title), row.title)
      && r.intent == LastGiven(Column(edits, (e: Revision) => e.intent), row.intent)
      && r.description == LastGiven(Column(edits, (e: Revision) => e.description), row.description)
      && r.summaryMd == LastGiven(Column(edits, (e: Revision) => e.summaryMd), row.summaryMd)
      && r.rev == row.rev + |edits|
  {
    if actions != [] {
      var front, action := actions[..|actions| - 1], actions[|actions| - 1].0;
      TextOfARow(row, front);
      var before, edits := Lived(row, front), Taken(row, front);
      TextStep(before, action, actions[|actions| - 1].1);
      hide LastGiven, Column, Transition;
      if action.Edit? && before.status == Active && before.deletedAt == None {
        LastGivenOne(edits, action.revision, (e: Revision) => e.title, row.title);
        LastGivenOne(edits, action.revision, (e: Revision) => e.intent, row.intent);
        LastGivenOne(edits, action.revision, (e: Revision) => e.description, row.description);
        LastGivenOne(edits, action.revision, (e: Revision) => e.summaryMd, row.summaryMd);
      } else {
        assert edits + [] == edits;
      }
    }
  }

  // ----- the paths of a document

  lemma PathsOfFirst(files: seq<Option<string>>)
    requires files != []
    ensures TouchedPaths(files) == PathsOf(files[0]) + TouchedPaths(files[1..])
  {
    if files[0].None? {
      assert [] + TouchedPaths(files[1..]) == TouchedPaths(files[1..]);
    }
  }

  /** The paths come in the order of the entries. */
  lemma {:induction false} PathsInOrder(a: seq<Option<string>>, b: seq<Option<string>>)
    ensures TouchedPaths(a + b) == TouchedPaths(a) + TouchedPaths(b)
  {
    hide TouchedPaths, PathsOf;
    if a == [] {
      assert a + b == b;
      NoPaths();
    } else {
      var first := PathsOf(a[0]);
      PathsInOrder(a[1..], b);
      PathsOfFirst(a);
      PathsOfFirst(a + b);
      assert (a + b)[1..] == a[1..] + b;
      assert first + (TouchedPaths(a[1..]) + TouchedPaths(b)) == (first + TouchedPaths(a[1..])) + TouchedPaths(b);
    }
  }

  function PathsOf(file: Option<string>): seq<string> {
    if file.Some? then [file.value] else []
  }

  lemma NoPaths()
    ensures TouchedPaths([]) == []
  {
  }

  lemma PathOf(file: Option<string>)
    ensures TouchedPaths([file]) == if file.Some? then [file.value] else []
  {
    assert [file][1..] == [];
  }
}
