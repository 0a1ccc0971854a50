/** The text helpers of lmd/helpers.py that serve the Slurm backend: `parse_sacct`,
    which reads `sacct --parsable2` output, and `wrap_shebang`, which prefixes a job
    script with an interpreter line. */
module SlurmText {
  import opened Wrappers
  import opened Strings

  function Min(a: nat, b: nat): nat { if a < b then a else b }

  /** No later position below `n` repeats the key at position `i`. */
  predicate LastOccurrence(keys: seq<string>, i: nat, n: nat)
    requires i < n <= |keys|
  {
    forall j :: i < j < n ==> keys[j] != keys[i]
  }

  /** The dict built from the first `n` key/field pairs, later pairs overriding earlier ones. */
  function ZipPrefix(keys: seq<string>, fields: seq<string>, n: nat): (m: map<string, string>)
    requires n <= |keys| && n <= |fields|
    ensures forall k :: k in m <==> k in keys[..n]
    ensures forall i :: 0 <= i < n && LastOccurrence(keys, i, n) ==> m[keys[i]] == fields[i]
  {
    if n == 0 then map[]
    else
      assert keys[..n] == keys[..n - 1] + [keys[n - 1]];
      ZipPrefix(keys, fields, n - 1)[keys[n - 1] := fields[n - 1]]
  }

  /** `{key: entry for key, entry in zip(keys, fields)}`: pairs up to the shorter of the
      two lists; a key repeated within that range keeps its last field. */
  function ZipDict(keys: seq<string>, fields: seq<string>): (m: map<string, string>)
    ensures forall k :: k in m <==> k in keys[..Min(|keys|, |fields|)]
    ensures forall i :: 0 <= i < Min(|keys|, |fields|) && LastOccurrence(keys, i, Min(|keys|, |fields|)) ==>
      m[keys[i]] == fields[i]
  {
    ZipPrefix(keys, fields, Min(|keys|, |fields|))
  }

  /** `parse_sacct(sacct_output)`: the first line of the stripped output is the header;
      every further line becomes one entry. */
  function ParseSacct(output: string): (entries: seq<map<string, string>>)
    ensures |entries| == |Split(Strip(output), '\n')| - 1
    ensures forall i, k :: 0 <= i < |entries| && k in entries[i] ==> k in Split(Split(Strip(output), '\n')[0], '|')
  {
    var lines := Split(Strip(output), '\n');
    var header := Split(lines[0], '|');
    seq(|lines| - 1, i requires 0 <= i < |lines| - 1 => ZipDict(header, Split(lines[i + 1], '|')))
  }

  /** Reading back a table: when the output, stripped of the white space around it (such
      as the final newline `sacct` prints), is a header line and data lines joined by
      newlines, there is one entry per data line, and entry `i` maps the `j`-th header
      field to the `j`-th field of data line `i` for every `j` below the shorter of the two
      (the last one wins for a repeated header). */
  lemma ParseSacctTable(output: string, lines: seq<string>)
    requires |lines| >= 1
    requires forall i :: 0 <= i < |lines| ==> '\n' !in lines[i]
    requires Strip(output) == Join(lines, '\n')
    ensures |ParseSacct(output)| == |lines| - 1
    ensures forall i :: 0 <= i < |lines| - 1 ==>
      ParseSacct(output)[i] == ZipDict(Split(lines[0], '|'), Split(lines[i + 1], '|'))
  {
    SplitJoin(lines, '\n');
  }

  const DefaultShell := "bash"
  const ShebangPrefix := "#!/usr/bin/env "

  /** `wrap_shebang(command, shell)`; the shell is bash unless given. */
  function WrapShebang(command: string, shell: string := DefaultShell): (script: string)
    ensures |script| > |ShebangPrefix| + |shell| && script[..|ShebangPrefix|] == ShebangPrefix
    ensures script[|ShebangPrefix|..][..|shell|] == shell
    ensures script[|ShebangPrefix| + |shell|] == '\n'
    ensures script[|ShebangPrefix| + |shell| + 1..] == command
  {
    ShebangPrefix + shell + "\n" + command
  }

  /** The inverse of WrapShebang: the interpreter named on the first line and the rest. */
  function UnwrapShebang(script: string): Option<(string, string)>
  {
    if |script| < |ShebangPrefix| || script[..|ShebangPrefix|] != ShebangPrefix then None
    else
      var rest := script[|ShebangPrefix|..];
      var lines := Split(rest, '\n');
      if |lines| < 2 then None else Some((lines[0], Join(lines[1..], '\n')))
  }

  /** Wrapping and unwrapping round-trip for any command and any one-line shell. */
  lemma ShebangRoundTrip(command: string, shell: string)
    requires '\n' !in shell
    ensures UnwrapShebang(WrapShebang(command, shell)) == Some((shell, command))
  {
    var script := WrapShebang(command, shell);
    var rest := script[|ShebangPrefix|..];
    assert rest == shell + ['\n'] + command;
    SplitPiece(shell, '\n', command);
    JoinSplit(command, '\n');
  }
}
