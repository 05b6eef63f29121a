/**
 The stored row of a container and its partial-field upsert
 (backend/modules/containers/containers_model.py, containers_util.py). Times are whole seconds.
 */
module Database {
  import opened Wrappers

  datatype Row = Row(
    checkEnabled: bool,
    updateEnabled: bool,
    updateAvailable: bool,
    checkedAt: Option<int>,
    updatedAt: Option<int>,
    remoteDigestsChangedAt: Option<int>,
    delayUpdateFor: Option<int>,
    localDigests: Option<seq<string>>,
    remoteDigests: Option<seq<string>>,
    imageId: Option<string>)

  /** A row as the database fills it in when nothing is supplied. */
  const EMPTY_ROW := Row(false, false, false, None, None, None, None, None, None, None)

  /** The fields one check supplies; the time of change is supplied only sometimes. */
  datatype CheckData = CheckData(
    updateAvailable: bool,
    checkedAt: int,
    localDigests: seq<string>,
    remoteDigests: seq<string>,
    imageId: string,
    changedAt: Option<int>)

  type Rows = map<string, Row>

  function Updated(row: Row, data: CheckData): Row {
    var row' := row.(
      updateAvailable := data.updateAvailable,
      checkedAt := Some(data.checkedAt),
      localDigests := Some(data.localDigests),
      remoteDigests := Some(data.remoteDigests),
      imageId := Some(data.imageId));
    if data.changedAt.Some? then row'.(remoteDigestsChangedAt := data.changedAt) else row'
  }

  class ContainerTable {
    var rows: Rows

    constructor ()
      ensures rows == map[]
    {
      rows := map[];
    }

    /** Sets the supplied fields of an existing row in place, or adds a row with them. */
    method InsertOrUpdate(name: string, data: CheckData)
      modifies this
      ensures rows == old(rows)[name := Updated(if name in old(rows) then old(rows)[name] else EMPTY_ROW, data)]
    {
      var row := if name in rows then rows[name] else EMPTY_ROW;
      ghost var before := row;
      if row.updateAvailable != data.updateAvailable {
        row := row.(updateAvailable := data.updateAvailable);
      }
      if row.checkedAt != Some(data.checkedAt) {
        row := row.(checkedAt := Some(data.checkedAt));
      }
      assert row == before.(updateAvailable := data.updateAvailable, checkedAt := Some(data.checkedAt));
      before := row;
      if row.localDigests != Some(data.localDigests) {
        row := row.(localDigests := Some(data.localDigests));
      }
      if row.remoteDigests != Some(data.remoteDigests) {
        row := row.(remoteDigests := Some(data.remoteDigests));
      }
      assert row == before.(localDigests := Some(data.localDigests), remoteDigests := Some(data.remoteDigests));
      before := row;
      if row.imageId != Some(data.imageId) {
        row := row.(imageId := Some(data.imageId));
      }
      if data.changedAt.Some? && row.remoteDigestsChangedAt != data.changedAt {
        row := row.(remoteDigestsChangedAt := data.changedAt);
      }
      rows := rows[name := row];
    }
  }
}
