# phpMyAdmin: binary-log viewer, replication screens and ODS export

A Dafny model of three parts of phpMyAdmin:

- **The binary-log viewer** (`BinlogController`). It builds the
  `SHOW BINLOG EVENTS [IN '<log>'] LIMIT <pos>, <MaxRows>` statement from the
  posted `log` and `pos`. From the number of rows the server returns, it
  derives the parameters of the previous, next and full-query links. It then
  fetches rows until the first empty one.
- **The replication screens** (`ReplicationGui`):
  - the status table, which classifies the two replica thread sentinels and
    puts a space after the commas of list-valued variables;
  - the start / stop / reset / skip-error / reconfigure links;
  - the user and host column lengths read from `mysql.user`;
  - the predefined host choice;
  - the one-shot action status kept in `$_SESSION['replication']`;
  - the control requests: change master, replica server control and skip
    error.
- **The OpenDocument Spreadsheet export plugin** (`ExportOds`). Its emitters
  only ever append to one global buffer: the header, one table per export,
  and the footer. Each result cell goes down a fixed ladder:
  NULL, blob, date, time, datetime, float, string.

The modules are:

- `Php` holds the PHP built-ins the code relies on: `empty()`, the `(int)`
  cast of strings, integer-to-string, `htmlspecialchars` with `ENT_QUOTES`,
  and ASCII `mb_strtolower`. It also holds generic sequence and map lemmas.
- `Binlog` holds the viewer. `getSqlQuery` is paired with a parser of the
  statement it builds.
- `Replication` holds the replication logic. `$_SESSION['replication']` is
  the `session` field of class `ReplicationGui`.
- `Xml` holds an element tree, its serialisation, a character-level scanner
  for tags, and a stack check that the scanned tags are well nested.
- `Ods` holds the plugin as class `OdsExport`, whose `buffer` field is
  `$GLOBALS['ods_buffer']`. Every emitter is proved to append the
  serialisation of an element tree (the header prolog, `TableNode`, the
  footer's closing tags). The lemmas about those trees give:
  - the shape of each table;
  - the kind and content of each cell;
  - well-nesting of each table and of the whole document.

Everything outside these files is replaced by inputs:

- database answers: the query result, the driver's return values, and the
  primary's answers during change master;
- the POST fields;
- the configuration (`MaxRows`, `AllowArbitraryServer`);
- the alias choices;
- the date formatter.

## Model

| member | source | states |
|---|---|---|
| Binlog.SqlQuery | libraries/classes/Controllers/Server/BinlogController.php:139-152 | The statement starts with `SHOW BINLOG EVENTS`. |
| Binlog.SqlQueryRoundTrip | libraries/classes/Controllers/Server/BinlogController.php:139-152 | Parsing the statement gives back what built it: the log name (or no `IN` clause when the name is PHP-empty, i.e. `""` or `"0"`), the position and the page size. |
| Binlog.PositionRoundTrip | libraries/classes/Controllers/Server/BinlogController.php:66 | An integer posted as `pos` in PHP's rendering comes back as the same position, negative ones included. |
| Binlog.CurrentParams | libraries/classes/Controllers/Server/BinlogController.php:68-80 | Each of these holds in both directions: `log` is kept exactly when it names a known binary log, and `is_full_query` (set to 1) is present exactly when the posted flag is non-empty. There are no other keys. |
| Binlog.PageLinks | libraries/classes/Controllers/Server/BinlogController.php:94-111 | The previous link gets `pos - MaxRows` only when `pos > MaxRows`. The next link gets `pos + MaxRows` only when at least `MaxRows` rows came back. The full-query link gets `pos` when it is positive and inverts the full-query flag. Nothing else changes in any link. |
| Binlog.FetchRows | libraries/classes/Controllers/Server/BinlogController.php:113-116 | The fetched values are the rows in order, up to but not including the first empty row (which PHP reads as false). |
| Binlog.Index | libraries/classes/Controllers/Server/BinlogController.php:51-133 | The view holds the statement built from `log ?? ''`, the position and `MaxRows`, plus the link parameters above. `has_previous` is `pos > 0`. `has_next` is "the row count is at least `MaxRows`", where a failed query counts 0 rows. The view also holds the fetched rows. |
| Replication.StatusTable | libraries/classes/ReplicationGui.php:256-324 | The table is a TypeError exactly when some list-valued variable of the chosen list reads null. Under `strict_types`, `str_replace` refuses a null subject, and a column missing from the first status row reads null. Otherwise there is one entry per variable, and each entry is `Classified`:<br>• attention exactly for a replica sentinel reading `No`;<br>• all-fine exactly for one reading `Yes`;<br>• a list-valued variable shown comma-spaced;<br>• any other value kept as read (`''` without a first status row, null for a missing column). |
| Replication.ClassifyVariable | libraries/classes/ReplicationGui.php:285-323 | The loop body fails (the `str_replace` TypeError) exactly for a list-valued variable reading null. Otherwise it gives the entry `Classified` describes, with the alerts tested before the all-fine values. |
| Replication.CommaSpaceRoundTrip | libraries/classes/ReplicationGui.php:319-323 | Wrapping only inserts spaces: collapsing `", "` back to `","` gives the stored list. |
| Replication.CommaSpaceSpaced | libraries/classes/ReplicationGui.php:319-323 | Every comma in the wrapped text is followed by a space. |
| Replication.SlaveConfigurationLinks | libraries/classes/ReplicationGui.php:132-183 | Each link is the page parameters plus only its own keys:<br>• IO / SQL links: start when that thread reads `No`, else stop, with parameter `IO_THREAD` / `SQL_THREAD`.<br>• Full link: start when either thread reads `No`, with a null parameter. So it stops exactly when both thread links stop.<br>• Reset link: action `reset`.<br>• Skip-error and reconfigure links: built from the original parameters.<br>• Running flags: a thread runs exactly when it does not read `No`. |
| Replication.UsernameHostnameLength | libraries/classes/ReplicationGui.php:339-366 | The lengths equal `LengthOf` for `User` (default 16) and `Host` (default 41): the length declared by the last column of that name whose second `strtok(type, '()')` token is an integer. |
| Replication.LengthOfDefault | libraries/classes/ReplicationGui.php:344-345 | If no column declares a length, the default stays. |
| Replication.LengthOfLast | libraries/classes/ReplicationGui.php:346-360 | Otherwise the last declaring column decides. |
| Replication.DeclaredLengthOf | libraries/classes/ReplicationGui.php:348-350 | A type written `name(N)...` declares exactly `N`. |
| Replication.HostnameChoice | libraries/classes/ReplicationGui.php:408-419 | The choice is `localhost` exactly when the lower-cased name is `localhost` or `127.0.0.1`, and `any` exactly when it is `%`. It is `userdefined` otherwise. |
| Replication.HostnameChoiceIgnoresCase | libraries/classes/ReplicationGui.php:408 | The choice is the same for a host name and its lower-cased form. |
| Replication.PredHostname | libraries/classes/ReplicationGui.php:406-420 | An existing `pred_hostname` is kept. Otherwise one is chosen exactly when a host name was posted, and it is that host name's choice. |
| Replication.NormaliseControlParm | libraries/classes/ReplicationGui.php:594-596 | A PHP-empty control parameter becomes null, and any other is passed through unchanged. |
| Replication.SlaveServerControl | libraries/classes/ReplicationGui.php:590-617 | Reset sends STOP, `RESET SLAVE;` and START, all three whatever the earlier ones return. Any other action sends one control call. Success holds exactly when no call returned false or -1. |
| Replication.ResetFailsOnAnyRefusal | libraries/classes/ReplicationGui.php:598-605 | A refusal in any of the three reset steps fails the reset. |
| Replication.SlaveSkipError | libraries/classes/ReplicationGui.php:624-642 | Sends STOP, the skip-counter statement with the posted count (1 when unset), then START. Success holds exactly when no call returned false or -1. |
| Replication.SkipCounterSqlRoundTrip | libraries/classes/ReplicationGui.php:634-636 | The number between the statement's prefix and `;` reads back as the count. |
| Replication.SkipErrorDefaultsToOne | libraries/classes/ReplicationGui.php:628-631 | With no count posted, the statement skips exactly one event. |
| Replication.ReplicationGui.GetHtmlForErrorMessage | libraries/classes/ReplicationGui.php:50-66 | A pending `error` / `success` status is shown once, with its info as the message, and then marked `unknown`. Anything else shows nothing and leaves the session unchanged. Afterwards nothing is pending. |
| Replication.ChangeMasterSession | libraries/classes/ReplicationGui.php:515-580 | Change master writes only its seven keys and keeps every other session key. The port is the `(int)` of the posted text. `m_correct` is true exactly when the primary was located. The status is `success` exactly when the change succeeded, and the outcome is left pending for the next page. |
| Replication.ChangeMasterCalls | libraries/classes/ReplicationGui.php:531-567 | The calls are: connect with the credentials and port; read the position once connected; point the replica at that position, with stop and no start, once located. |
| Replication.ReplicationGui.HandleRequestForSlaveChangeMaster | libraries/classes/ReplicationGui.php:510-583 | The result is true exactly when the primary connects, reports a non-empty position and accepts the change. The new session and the calls are those `ChangeMasterSession` and `ChangeMasterCalls` give. |
| Replication.ReplicationGui.HandleControlRequest | libraries/classes/ReplicationGui.php:439-503 | Without `sr_take_action` nothing happens. Otherwise precedence is fixed:<br>• change master, refused with the configuration message when arbitrary servers are off, otherwise with the full outcome, calls and new session of `ChangeMasterSession` / `ChangeMasterCalls`;<br>• then server control, with the action's success or error message;<br>• then skip error;<br>• then nothing.<br>Only change master touches the session. |
| Ods.TableAlias | libraries/classes/Plugins/Export/ExportOds.php:223-236 | A non-empty alias given for the table is the `table:name`. Otherwise (or without aliases) it is the table. |
| Ods.ColumnAlias | libraries/classes/Plugins/Export/ExportOds.php:242-245 | A heading is the column name, or the non-empty alias given for that column. |
| Ods.ColumnAliasChosen | libraries/classes/Plugins/Export/ExportOds.php:243-244 | The name stays exactly when the alias is empty or equal to the name. |
| Ods.StripSlashesRoundTrip | libraries/classes/Plugins/Export/ExportOds.php:250-252 | `stripslashes` undoes `addslashes`. |
| Ods.Bin2HexRoundTrip | libraries/classes/Plugins/Export/ExportOds.php:264-267 | The hex digits of a geometry value decode back to its bytes. |
| Ods.GeometryAsWritten | libraries/classes/Plugins/Export/ExportOds.php:264-267 | As written, the rewrite raises a TypeError exactly when the column is NULL. |
| Ods.Geometry | libraries/classes/Plugins/Export/ExportOds.php:264-267 | The corrected rewrite: a value becomes `0x` plus its hex digits (as the code does), and NULL stays NULL. |
| Ods.GeometryNullCounterexample | libraries/classes/Plugins/Export/ExportOds.php:264-269 | Input: a NULL geometry column. As written it raises a TypeError, while the corrected rewrite sends it to the NULL rung. |
| Ods.CellValue | libraries/classes/Plugins/Export/ExportOds.php:263-268 | A non-geometry cell is the row's value, and a column the row lacks is unset. |
| Ods.Dispatch | libraries/classes/Plugins/Export/ExportOds.php:269-335 | The rung taken is the first from the top whose condition holds. |
| Ods.DispatchUnique | libraries/classes/Plugins/Export/ExportOds.php:269-335 | The order is fixed and the choice unique: any rung that holds with none above it holding is the one taken. |
| Ods.GeometryNullOnlyWhenNull | libraries/classes/Plugins/Export/ExportOds.php:264-275 | With the corrected rewrite, a geometry cell takes the NULL rung exactly when its column is NULL or absent. |
| Ods.CellNode | libraries/classes/Plugins/Export/ExportOds.php:269-335 | Each rung writes its own cell:<br>• NULL: a string cell holding the escaped null text.<br>• Blob: an empty `text:p`.<br>• Float: the raw value in `office:value` and the escaped value as text.<br>• Date, time and datetime: the formatted value and their style in attributes, and the escaped value as text.<br>• Blob and string cells are of type string. |
| Ods.CellTextRoundTrip | libraries/classes/Plugins/Export/ExportOds.php:285-334 | The text of every non-blob, non-NULL cell unescapes to the cell's value. |
| Ods.HeaderRow | libraries/classes/Plugins/Export/ExportOds.php:239-258 | The header row has one cell per column. |
| Ods.DataRow | libraries/classes/Plugins/Export/ExportOds.php:261-339 | A data row has exactly one cell per column, whatever the row holds. |
| Ods.Fetched | libraries/classes/Plugins/Export/ExportOds.php:261 | The fetch loop takes the rows before the first empty one. |
| Ods.Heading | libraries/classes/Plugins/Export/ExportOds.php:239 | There is a header row exactly when the columns option is set. |
| Ods.TableNode | libraries/classes/Plugins/Export/ExportOds.php:235-236 | The table is named by the escaped table alias. |
| Ods.TableShape | libraries/classes/Plugins/Export/ExportOds.php:239-339 | The table holds the header row first when asked for, then one row per fetched row, and nothing else. |
| Ods.TableRows | libraries/classes/Plugins/Export/ExportOds.php:261-339 | Each fetched row becomes its own data row, in order, with as many cells as there are fields. |
| Ods.CellWellFormed | libraries/classes/Plugins/Export/ExportOds.php:269-335 | Every cell is a well-formed element, given angle-free date formats and float values. |
| Ods.RowWellFormed | libraries/classes/Plugins/Export/ExportOds.php:262-338 | Every data row is well formed. |
| Ods.HeaderWellFormed | libraries/classes/Plugins/Export/ExportOds.php:240-257 | The header row is well formed for any headings. |
| Ods.TableWellFormed | libraries/classes/Plugins/Export/ExportOds.php:235-343 | The table is well formed. |
| Ods.TableWellNested | libraries/classes/Plugins/Export/ExportOds.php:235-343 | The text `exportData` appends is well nested: every table, row and cell it opens it closes, in order. |
| Ods.DocumentWellNested | libraries/classes/Plugins/Export/ExportOds.php:90-158 | The header, any well-formed tables and then the footer form a well-nested document: the footer closes exactly what the header left open. |
| Ods.OdsExport.constructor | libraries/classes/Plugins/Export/ExportOds.php:32-37 | A new plugin starts with an empty buffer. |
| Ods.OdsExport.ExportHeader | libraries/classes/Plugins/Export/ExportOds.php:90-139 | Appends the declaration, the open document, the automatic styles, and the open body and spreadsheet. It returns true. |
| Ods.OdsExport.ExportFooter | libraries/classes/Plugins/Export/ExportOds.php:146-158 | Appends the three closing tags and hands back the whole buffer as the content. |
| Ods.OdsExport.ExportDBHeader | libraries/classes/Plugins/Export/ExportOds.php:168-171 | Returns true and changes nothing. |
| Ods.OdsExport.ExportDBFooter | libraries/classes/Plugins/Export/ExportOds.php:180-183 | Returns true and changes nothing. |
| Ods.OdsExport.ExportDBCreate | libraries/classes/Plugins/Export/ExportOds.php:194-197 | Returns true and changes nothing. |
| Ods.OdsExport.ExportHeaderRow | libraries/classes/Plugins/Export/ExportOds.php:240-257 | The loop appends exactly the rendered header row. |
| Ods.OdsExport.ExportCell | libraries/classes/Plugins/Export/ExportOds.php:263-335 | Appends exactly the rendered cell for the rewritten value. |
| Ods.OdsExport.ExportRow | libraries/classes/Plugins/Export/ExportOds.php:262-338 | The loop appends exactly the rendered data row. |
| Ods.OdsExport.ExportRows | libraries/classes/Plugins/Export/ExportOds.php:261-339 | The fetch loop appends exactly the rendered rows before the first empty one. |
| Ods.OdsExport.ExportHeading | libraries/classes/Plugins/Export/ExportOds.php:239-258 | Appends the header row when the columns option is set, and nothing otherwise. |
| Ods.OdsExport.ExportData | libraries/classes/Plugins/Export/ExportOds.php:211-346 | Returns true. It only appends to the buffer, and what it appends is the serialisation of `TableNode`, whose shape, cells and nesting the lemmas above state. |
| Ods.OdsExport.ExportRawQuery | libraries/classes/Plugins/Export/ExportOds.php:357-360 | It is `exportData` with no database, no table and no aliases. |

## Left out

- Database access, HTTP input and output, templates, `Url::getCommon`, `Message`, `Response` and the AJAX-versus-redirect branch of `handleControlRequest` are left out. Their results are inputs, or the model stops before them.
- PHP arrays are modelled as maps, so key order is not captured. The link parameter arrays and the status-table array are compared as maps.
- Binlog.PositionRoundTrip: `(int)` is modelled on decimal integer strings with optional leading space and sign. Float and exponent forms and the 64-bit saturation of `(int)` are not modelled.
- Binlog.Index: integers are unbounded, so the overflow of `pos + MaxRows` past 64 bits is not modelled.
- Replication.UsernameHostnameLength: `Util::isInteger` is not part of this model. It is taken to accept a non-empty string of decimal digits.
- Replication.SlaveSkipError: the posted count arrives as an integer. The `* 1` numeric conversion of the posted string is not modelled.
- Replication.ReplicationGui.HandleRequestForSlaveChangeMaster: the credentials are taken as already escaped, because `escapeString` belongs to the database driver.
- Replication.HostnameChoice: `mb_strtolower` is modelled on ASCII letters only.
- `htmlspecialchars` escapes `& " ' < >` per character, as its default flags do from PHP 8.1 on (`ENT_QUOTES | ENT_SUBSTITUTE`). Earlier PHP versions leave `'` as is. Invalid UTF-8 handling is not modelled, and each character stands for one byte.
- Ods.OdsExport.ExportFooter: `OpenDocument::create` (zip packaging) and `outputHandler` are not part of this model. The method returns the finished content instead of the handler's result.
- Ods.OdsExport.ExportHeader: the namespace declarations `OpenDocument::NS` are a parameter. They are not part of this model.
- Ods.CellNode: `date(format, strtotime(v))` is an opaque function per format, with time zone and locale as inputs. The TypeError `date()` raises when `strtotime` fails is not modelled.
- Ods.TableAlias: `initAlias` is not part of this model. The table name is taken to be replaced by a non-empty alias, as for the columns.
- Ods.TableWellNested: well-nesting assumes the date formatter yields no angle brackets and float values hold none. Float values are written into an attribute unescaped.
- `setProperties`, the plugin option tree and `time()` are not modelled.

## Findings

| source | as written | input that shows it | evidently intended | confidence | as-written member | corrected member |
|---|---|---|---|---|---|---|
| libraries/classes/Plugins/Export/ExportOds.php:264-267 | The file declares `strict_types=1` (line 6). It then applies `'0x' . bin2hex($row[$j])` to every geometry column before the NULL test at line 269. `bin2hex` takes a string, so a NULL passed to it raises a TypeError. | A geometry column whose value is NULL | NULL geometry cells reach the NULL rung and are written as the null replacement text. Only non-NULL values are rewritten as `0x` plus hex. | medium, not executed | Ods.GeometryAsWritten | Ods.Geometry |
