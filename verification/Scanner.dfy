/**
 The scanner of lex.yy.c over an arbitrary sound automaton: matching in a buffer that is refilled,
 shifted down and grown in place, with back-up and end-of-file handling. Characters are not NUL.
 */
module Scanner {
  import opened Scanning

  const YY_READ_BUF_SIZE := 8192

  datatype Status = New | Normal | EofPending

  datatype Refill = ContinueScan | EndOfFile | LastMatch

  /** `yy_size_t` is unsigned: what a negative int becomes when stored in it. */
  function ToSize(x: int): nat {
    if x < 0 then x % 0x1_0000_0000_0000_0000 else x
  }

  class Scanner {
    const dfa: Dfa
    const rules: Rules
    ghost const starts: set<int>
    var file: seq<char>              // what the input file will still deliver
    var yy_ch_buf: array<char>
    var yy_buf_size: nat
    var yy_n_chars: nat              // the global
    var buffer_n_chars: nat          // the copy in the buffer state
    var buffer_status: Status
    var yy_c_buf_p: nat
    var yytext_ptr: nat
    var yy_hold_char: char
    var yy_start: int
    var yy_last_accepting_state: int
    var yy_last_accepting_cpos: nat

    /** `yy_create_buffer` and `yy_load_buffer_state` on a fresh input. */
    constructor (dfa: Dfa, rules: Rules, ghost starts: set<int>, start: int, size: nat, file: seq<char>)
      requires Scannable(dfa, rules, starts, start, file) && 1 <= size
      ensures Valid() && Pending() == file && yy_start == start && fresh(yy_ch_buf)
      ensures this.dfa == dfa && this.rules == rules && this.starts == starts
    {
      this.dfa, this.rules, this.starts, this.file, yy_start := dfa, rules, starts, file, start;
      var b := new char[size + 2];
      yy_ch_buf, yy_buf_size := b, size;
      yy_n_chars, buffer_n_chars, buffer_status := 0, 0, New;
      yy_c_buf_p, yytext_ptr, yy_hold_char := 0, 0, NUL;
      yy_last_accepting_state, yy_last_accepting_cpos := 0, 0;
      new;
      yy_ch_buf[0] := NUL;
      yy_ch_buf[1] := NUL;
    }

    /** Sizes: at most size-1 characters and two end markers inside size+2 bytes. */
    ghost predicate Sized()
      reads `file, `yy_ch_buf, `yy_buf_size, `yy_n_chars, `buffer_n_chars, `buffer_status, `yy_start
    {
      && SoundRules(dfa, rules, starts) && yy_start in starts
      && 1 <= yy_buf_size && yy_ch_buf.Length == yy_buf_size + 2 && yy_n_chars < yy_buf_size
      && (buffer_status.New? ==> yy_n_chars == 0 && buffer_n_chars == 0)
      && (buffer_status.EofPending? ==> file == [])
      && NoNul(file)
    }

    /** The buffer holds plain text and its two end markers. */
    ghost predicate Plain()
      reads `yy_ch_buf, `yy_n_chars, yy_ch_buf
    {
      Ended(yy_ch_buf[..], yy_n_chars)
    }

    /** The buffer with the held-back character in its place. */
    ghost function Restored(): seq<char>
      reads this, yy_ch_buf
    {
      if yy_c_buf_p < yy_ch_buf.Length then yy_ch_buf[..][yy_c_buf_p := yy_hold_char] else yy_ch_buf[..]
    }

    /** Between calls one character is held back, with a NUL in its place. */
    ghost predicate Valid()
      reads this, yy_ch_buf
    {
      Sized() && yy_c_buf_p <= yy_n_chars && Ended(Restored(), yy_n_chars)
    }

    /** What is still to be scanned: the rest of the buffer, then the rest of the file. */
    ghost function Pending(): seq<char>
      requires Valid()
      reads this, yy_ch_buf
    {
      Restored()[yy_c_buf_p..yy_n_chars] + file
    }

    /** The recorded back-up position is the last accepting one among the first `k` states. */
    ghost predicate LastOk(bp: nat, w: seq<char>, k: nat)
      requires k <= |w|
      reads `yy_start, `yy_last_accepting_state, `yy_last_accepting_cpos
    {
      var r := Last(dfa, yy_start, w, k);
      r >= 0 ==> yy_last_accepting_cpos == bp + r && yy_last_accepting_state == State(dfa, yy_start, w, r)
    }

    /** `w` is the stream from buffer position `bp` on. */
    ghost predicate Stream(bp: nat, w: seq<char>)
      reads `file, `yy_ch_buf, `yy_buf_size, `yy_n_chars, `buffer_n_chars, `buffer_status, `yy_start, yy_ch_buf
    {
      Sized() && Plain() && bp <= yy_n_chars && w == yy_ch_buf[bp..yy_n_chars] + file
    }

    /** The scan of `w` has come to the end of the buffer without stopping. */
    ghost predicate ReadAll(bp: nat, w: seq<char>)
      reads `yy_start, `yy_n_chars
    {
      var k := yy_n_chars - bp;
      0 <= k <= |w| && NoStop(dfa, yy_start, w, k) && !dfa.stop(State(dfa, yy_start, w, k))
    }

    /** In the middle of a match: in `state` in front of position `cp`, possibly past the first end marker. */
    ghost predicate Reading(bp: nat, w: seq<char>, state: int, cp: nat)
      reads this
    {
      if cp <= yy_n_chars then
        && bp <= cp && cp - bp <= |w| && state == State(dfa, yy_start, w, cp - bp) && !dfa.stop(state)
        && NoStop(dfa, yy_start, w, cp - bp) && LastOk(bp, w, cp - bp)
      else cp == yy_n_chars + 1 && state == dfa.eob && ReadAll(bp, w)
    }

    /** At the end of a match: in a stopping state inside the text, or behind both end markers. */
    ghost predicate Stopped(bp: nat, w: seq<char>, state: int, cp: nat)
      reads this
    {
      dfa.stop(state) &&
      if cp <= yy_n_chars then
        && bp <= cp && cp - bp <= |w| && state == State(dfa, yy_start, w, cp - bp)
        && NoStop(dfa, yy_start, w, cp - bp) && LastOk(bp, w, cp - bp)
      else
        && cp == yy_n_chars + 2 && dfa.accept(state) == 0 && ReadAll(bp, w)
        && yy_last_accepting_state == dfa.eob && yy_last_accepting_cpos == yy_n_chars + 1
    }

    /** Label yy_match: run the automaton until it stops, remembering accepting states. */
    method YyMatch(bp: nat, from: int, at: nat, ghost w: seq<char>) returns (state: int, cp: nat)
      requires Stream(bp, w) && at <= yy_n_chars && Reading(bp, w, from, at)
      modifies `yy_last_accepting_state, `yy_last_accepting_cpos
      ensures Stopped(bp, w, state, cp)
    {
      hide Stream, Reading, Stopped;
      state, cp := from, at;
      while true
        invariant cp <= yy_n_chars + 1 && Stream(bp, w) && Reading(bp, w, state, cp)
        decreases yy_n_chars + 2 - cp
      {
        state, cp := YyStep(bp, state, cp, w);
        if dfa.stop(state) { break; }
      }
    }

    /** The body of the matching loop. */
    method YyStep(bp: nat, from: int, at: nat, ghost w: seq<char>) returns (state: int, cp: nat)
      requires Stream(bp, w) && Reading(bp, w, from, at)
      modifies `yy_last_accepting_state, `yy_last_accepting_cpos
      ensures cp == at + 1
      ensures if dfa.stop(state) then Stopped(bp, w, state, cp) else cp <= yy_n_chars + 1 && Reading(bp, w, state, cp)
      ensures Stream(bp, w)
    {
      hide Sized, Plain, State, Last, NoStop, Stream, Reading, Stopped, LastOk, ReadAll;
      if at < yy_n_chars {
        InText(bp, w, from, at);
      } else {
        AtMarker(bp, w, from, at);
      }
      if dfa.accept(from) != 0 {
        yy_last_accepting_state, yy_last_accepting_cpos := from, at;
        LastHere(bp, w, from, at);
      }
      state := dfa.delta(from, yy_ch_buf[at]);
      cp := at + 1;
      Stepped(bp, w, from, at, state);
    }

    /** What a character of the text does. */
    ghost predicate Ahead(bp: nat, w: seq<char>, from: int, at: nat)
      reads `yy_start, `yy_ch_buf, `yy_n_chars, yy_ch_buf
    {
      && bp <= at < yy_n_chars && at < yy_ch_buf.Length && at - bp < |w| && yy_ch_buf[at] == w[at - bp]
      && from == State(dfa, yy_start, w, at - bp) && !dfa.stop(from) && NoStop(dfa, yy_start, w, at - bp)
    }

    /** What an end marker does. */
    ghost predicate Marker(bp: nat, w: seq<char>, from: int, at: nat)
      reads `yy_start, `yy_ch_buf, `yy_n_chars, yy_ch_buf
    {
      && yy_n_chars <= at <= yy_n_chars + 1 && at < yy_ch_buf.Length && yy_ch_buf[at] == NUL && ReadAll(bp, w)
      && (if at == yy_n_chars then dfa.delta(from, NUL) == dfa.eob else from == dfa.eob)
      && !dfa.stop(dfa.eob) && dfa.accept(dfa.eob) != 0
      && dfa.stop(dfa.delta(dfa.eob, NUL)) && dfa.accept(dfa.delta(dfa.eob, NUL)) == 0
    }

    lemma InText(bp: nat, w: seq<char>, from: int, at: nat)
      requires Stream(bp, w) && Reading(bp, w, from, at) && at < yy_n_chars
      ensures Ahead(bp, w, from, at) && LastOk(bp, w, at - bp)
    {
      hide Sound, SoundRules, NoNul, Ended, State, Last, NoStop, LastOk;
      StreamAt(bp, w, at);
    }

    lemma AtMarker(bp: nat, w: seq<char>, from: int, at: nat)
      requires Stream(bp, w) && Reading(bp, w, from, at) && yy_n_chars <= at
      ensures Marker(bp, w, from, at)
    {
      EndMarkers();
      EndOfBuffer(from);
      if at == yy_n_chars {
        StreamAt(bp, w, at);
      }
      hide Sound, SoundRules, NoNul, Ended, State, Last, NoStop, LastOk, Sized, Plain;
    }

    /** The accepting state just passed is the last one. */
    lemma LastHere(bp: nat, w: seq<char>, from: int, at: nat)
      requires dfa.accept(from) != 0 && yy_last_accepting_state == from && yy_last_accepting_cpos == at
      ensures Ahead(bp, w, from, at) ==> LastOk(bp, w, at - bp + 1)
    {
      hide State, Last, NoStop;
      if Ahead(bp, w, from, at) {
        Onward(dfa, yy_start, w, at - bp);
      }
    }

    lemma Stepped(bp: nat, w: seq<char>, from: int, at: nat, state: int)
      requires Ahead(bp, w, from, at) || Marker(bp, w, from, at)
      requires Ahead(bp, w, from, at) ==> state == dfa.delta(from, w[at - bp])
      requires Marker(bp, w, from, at) ==> state == dfa.delta(from, NUL)
      requires Ahead(bp, w, from, at) ==> LastOk(bp, w, if dfa.accept(from) != 0 then at - bp + 1 else at - bp)
      requires dfa.accept(from) != 0 ==> yy_last_accepting_state == from && yy_last_accepting_cpos == at
      ensures if dfa.stop(state) then Stopped(bp, w, state, at + 1)
              else at + 1 <= yy_n_chars + 1 && Reading(bp, w, state, at + 1)
    {
      hide State, Last, NoStop, ReadAll;
      if Ahead(bp, w, from, at) {
        Onward(dfa, yy_start, w, at - bp);
      }
    }

    /** How the automaton treats the two end markers. */
    lemma EndOfBuffer(s: int)
      requires Sized()
      ensures !dfa.stop(s) && s != dfa.eob ==> dfa.delta(s, NUL) == dfa.eob
      ensures !dfa.stop(dfa.eob) && dfa.accept(dfa.eob) == YY_END_OF_BUFFER
      ensures dfa.stop(dfa.delta(dfa.eob, NUL)) && dfa.accept(dfa.delta(dfa.eob, NUL)) == 0
    {}

    lemma EndMarkers()
      requires Sized() && Plain()
      ensures yy_n_chars + 1 < yy_ch_buf.Length && yy_ch_buf[yy_n_chars + 1] == NUL
    {}

    /** `yy_get_previous_state`: run the automaton again over the text in front of `yy_c_buf_p`. */
    method YyGetPreviousState(ghost w: seq<char>) returns (state: int)
      requires Stream(yytext_ptr, w) && yytext_ptr <= yy_c_buf_p <= yy_n_chars
      modifies `yy_last_accepting_state, `yy_last_accepting_cpos
      ensures var k := yy_c_buf_p - yytext_ptr;
              k <= |w| && state == State(dfa, yy_start, w, k) && LastOk(yytext_ptr, w, k)
    {
      hide Sound, SoundRules, Sized, NoNul;
      state := yy_start;
      var yy_cp := yytext_ptr;
      while yy_cp < yy_c_buf_p
        invariant yytext_ptr <= yy_cp <= yy_c_buf_p && yy_cp - yytext_ptr <= |w|
        invariant state == State(dfa, yy_start, w, yy_cp - yytext_ptr) && LastOk(yytext_ptr, w, yy_cp - yytext_ptr)
      {
        StreamAt(yytext_ptr, w, yy_cp);
        if dfa.accept(state) != 0 {
          yy_last_accepting_state, yy_last_accepting_cpos := state, yy_cp;
        }
        state := dfa.delta(state, yy_ch_buf[yy_cp]);
        yy_cp := yy_cp + 1;
      }
    }

    /** Label yy_find_action: back up to the last accepting state if this one accepts nothing. */
    method YyFindAction(state: int, cp: nat) returns (act: int, end: nat)
      ensures act == (if dfa.accept(state) != 0 then dfa.accept(state) else dfa.accept(yy_last_accepting_state))
      ensures end == if dfa.accept(state) != 0 then cp else yy_last_accepting_cpos
    {
      act, end := dfa.accept(state), cp;
      if act == 0 {
        end := yy_last_accepting_cpos;
        act := dfa.accept(yy_last_accepting_state);
      }
    }

    /** The first loop of `yy_get_next_buffer`: move the unfinished token to the start of the buffer. */
    method MoveDown(moved: nat)
      requires yytext_ptr + moved <= yy_ch_buf.Length
      modifies yy_ch_buf
      ensures yy_ch_buf[..moved] == old(yy_ch_buf[yytext_ptr..yytext_ptr + moved])
    {
      var dest, source := 0, yytext_ptr;
      while dest < moved
        invariant 0 <= dest <= moved && source == yytext_ptr + dest
        invariant forall j | 0 <= j < dest :: yy_ch_buf[j] == old(yy_ch_buf[yytext_ptr + j])
        invariant forall j | dest <= j < yy_ch_buf.Length :: yy_ch_buf[j] == old(yy_ch_buf[j])
      {
        yy_ch_buf[dest] := yy_ch_buf[source];
        dest, source := dest + 1, source + 1;
      }
    }

    /**
     The growing loop: room for at least one more character. The room is computed as an int and
     stored unsigned; since the token is shorter than the buffer it is never negative.
     */
    method EnsureRoom(moved: nat) returns (num_to_read: nat)
      requires 1 <= yy_buf_size && yy_ch_buf.Length == yy_buf_size + 2 && moved < yy_buf_size
      modifies `yy_ch_buf, `yy_buf_size
      ensures yy_ch_buf.Length == yy_buf_size + 2 && moved < yy_buf_size
      ensures yy_ch_buf[..moved] == old(yy_ch_buf[..moved])
      ensures 1 <= num_to_read == yy_buf_size - moved - 1
      ensures yy_ch_buf == old(yy_ch_buf) || fresh(yy_ch_buf)
    {
      num_to_read := ToSize(yy_buf_size - moved - 1);
      while num_to_read <= 0
        invariant 1 <= yy_buf_size && yy_ch_buf.Length == yy_buf_size + 2 && moved < yy_buf_size
        invariant yy_ch_buf[..moved] == old(yy_ch_buf[..moved])
        invariant num_to_read == yy_buf_size - moved - 1
        invariant yy_ch_buf == old(yy_ch_buf) || fresh(yy_ch_buf)
        decreases moved + 1 - num_to_read
      {
        var new_size := ToSize(yy_buf_size * 2);
        if new_size <= 0 {
          assert false;  // the branch for a size that has wrapped to 0
        }
        yy_buf_size := yy_buf_size * 2;
        Reallocate(yy_buf_size + 2);
        num_to_read := ToSize(yy_buf_size - moved - 1);
      }
    }

    /** `yyrealloc` to a larger size: the contents stay. */
    method Reallocate(size: nat)
      requires yy_ch_buf.Length <= size
      modifies `yy_ch_buf
      ensures fresh(yy_ch_buf) && yy_ch_buf.Length == size
      ensures yy_ch_buf[..old(yy_ch_buf.Length)] == old(yy_ch_buf[..])
    {
      var b := new char[size];
      forall i | 0 <= i < yy_ch_buf.Length {
        b[i] := yy_ch_buf[i];
      }
      yy_ch_buf := b;
    }

    /**
     YY_INPUT: the file delivers any number of characters from 1 to `max`, and 0 only at its end.
     */
    method YyInput(at: nat, max: nat) returns (n: nat)
      requires 1 <= max && at + max <= yy_ch_buf.Length
      modifies yy_ch_buf, `file
      ensures n <= max && n <= |old(file)| && (n == 0 <==> old(file) == [])
      ensures file == old(file)[n..] && yy_ch_buf[..at] == old(yy_ch_buf[..at])
      ensures yy_ch_buf[at..at + n] == old(file)[..n]
    {
      if file == [] {
        n := 0;
        return;
      }
      assert 1 <= 1 <= max && 1 <= |file|;
      n :| 1 <= n <= max && n <= |file|;
      forall i | 0 <= i < n {
        yy_ch_buf[at + i] := file[i];
      }
      ghost var was := file;
      file := file[n..];
      forall i | 0 <= i < n ensures yy_ch_buf[at..at + n][i] == was[..n][i] {
      }
    }

    /** `yyrestart` at the end of the file: flush the buffer and load its (empty) state. */
    method YyRestart()
      requires 2 <= yy_ch_buf.Length
      modifies this, yy_ch_buf
      ensures yy_n_chars == buffer_n_chars == 0 && buffer_status == New && yy_c_buf_p == yytext_ptr == 0
      ensures unchanged(`file, `yy_ch_buf, `yy_buf_size, `yy_start)
      ensures yy_hold_char == NUL && yy_ch_buf[0] == NUL && yy_ch_buf[1] == NUL
    {
      buffer_n_chars := 0;
      yy_ch_buf[0], yy_ch_buf[1] := NUL, NUL;
      buffer_status := New;
      yy_n_chars := buffer_n_chars;
      yytext_ptr, yy_c_buf_p := 0, 0;
      yy_hold_char := yy_ch_buf[yy_c_buf_p];
    }

    /** The reading half of `yy_get_next_buffer`: `yy_n_chars` becomes the number of characters read. */
    method Refill(moved: nat)
      requires 1 <= yy_buf_size && yy_ch_buf.Length == yy_buf_size + 2 && moved < yy_buf_size && NoNul(file)
      requires buffer_status.EofPending? ==> file == []
      modifies this, yy_ch_buf
      ensures unchanged(`yytext_ptr, `yy_c_buf_p, `yy_hold_char, `yy_start, `buffer_status)
      ensures yy_ch_buf == old(yy_ch_buf) || fresh(yy_ch_buf)
      ensures yy_ch_buf.Length == yy_buf_size + 2 && moved + yy_n_chars < yy_buf_size
      ensures yy_n_chars <= |old(file)| && file == old(file)[yy_n_chars..] && (yy_n_chars == 0 <==> old(file) == [])
      ensures yy_ch_buf[..moved] == old(yy_ch_buf[..moved])
      ensures yy_ch_buf[moved..moved + yy_n_chars] == old(file)[..yy_n_chars]
      ensures buffer_n_chars == yy_n_chars
    {
      if buffer_status == EofPending {
        yy_n_chars := 0;
      } else {
        var num_to_read := EnsureRoom(moved);
        if num_to_read > YY_READ_BUF_SIZE { num_to_read := YY_READ_BUF_SIZE; }
        yy_n_chars := YyInput(moved, num_to_read);
      }
      buffer_n_chars := yy_n_chars;
    }

    /** What a refill must do to the unfinished token `t` and the file's `rest`. */
    ghost predicate Refilled(ret: Refill, t: seq<char>, rest: seq<char>)
      requires yy_n_chars <= yy_ch_buf.Length
      reads this, yy_ch_buf
    {
      match ret
      case EndOfFile => t == [] && rest == [] == file && yy_n_chars == 0 && yy_c_buf_p == 0 && yy_hold_char == NUL
      case LastMatch => t != [] && rest == [] == file && yy_ch_buf[..yy_n_chars] == t
      case ContinueScan =>
        |file| < |rest| && |t| < yy_n_chars && yy_ch_buf[..yy_n_chars] + file == t + rest
    }

    /** Behind the read: the token and the new characters stand at the start of the buffer. */
    ghost predicate Loaded(t: seq<char>, rest: seq<char>)
      reads this, yy_ch_buf
    {
      && 1 <= yy_buf_size && yy_ch_buf.Length == yy_buf_size + 2 && |t| + yy_n_chars < yy_buf_size
      && yy_n_chars <= |rest| && file == rest[yy_n_chars..] && (yy_n_chars == 0 <==> rest == [])
      && yy_ch_buf[..|t| + yy_n_chars] == t + rest[..yy_n_chars]
    }

    method MoveAndRead(moved: nat, ghost t: seq<char>)
      requires Sized() && yytext_ptr + moved == yy_n_chars && t == yy_ch_buf[yytext_ptr..yy_n_chars]
      modifies this, yy_ch_buf
      ensures unchanged(`yytext_ptr, `yy_c_buf_p, `yy_hold_char, `yy_start, `buffer_status)
      ensures yy_ch_buf == old(yy_ch_buf) || fresh(yy_ch_buf)
      ensures Loaded(t, old(file)) && buffer_n_chars == yy_n_chars
    {
      hide Sound, SoundRules;
      MoveDown(moved);
      Refill(moved);
      assert yy_ch_buf[..moved + yy_n_chars] == yy_ch_buf[..moved] + yy_ch_buf[moved..moved + yy_n_chars];
    }

    /** The tail of `yy_get_next_buffer`: close the text with two end markers. */
    method CloseText(moved: nat, ghost text: seq<char>)
      requires moved + yy_n_chars + 1 < yy_ch_buf.Length && yy_ch_buf[..moved + yy_n_chars] == text && NoNul(text)
      modifies `yy_n_chars, `yytext_ptr, yy_ch_buf
      ensures yy_n_chars == moved + old(yy_n_chars) && yytext_ptr == 0
      ensures Plain() && yy_ch_buf[..yy_n_chars] == text
    {
      yy_n_chars := yy_n_chars + moved;
      yy_ch_buf[yy_n_chars] := NUL;
      yy_ch_buf[yy_n_chars + 1] := NUL;
      yytext_ptr := 0;
    }

    lemma PlainText()
      requires Sized() && Plain()
      ensures NoNul(yy_ch_buf[..yy_n_chars]) && NoNul(file)
    {
      hide SoundRules, NoNul;
    }

    /** `yy_get_next_buffer`: nothing of the stream is lost, whatever the reads deliver. */
    method YyGetNextBuffer() returns (ret: Refill)
      requires Sized() && Plain() && yytext_ptr <= yy_n_chars && yy_c_buf_p == yy_n_chars + 1 && !buffer_status.New?
      modifies this, yy_ch_buf
      ensures Sized() && Plain() && yytext_ptr == 0 && yy_start == old(yy_start)
      ensures yy_ch_buf == old(yy_ch_buf) || fresh(yy_ch_buf)
      ensures Refilled(ret, old(yy_ch_buf[yytext_ptr..yy_n_chars]), old(file))
    {
      PlainText();
      hide Sound, SoundRules, NoNul, Plain, Refilled, Loaded;
      ghost var t, rest := yy_ch_buf[yytext_ptr..yy_n_chars], file;
      if yy_c_buf_p > yy_n_chars + 1 {
        assert false;  // "end of buffer missed"
      }
      var number_to_move := yy_c_buf_p - yytext_ptr - 1;
      SliceNoNul(yy_ch_buf[..yy_n_chars], yytext_ptr);
      assert t == yy_ch_buf[..yy_n_chars][yytext_ptr..];
      MoveAndRead(number_to_move, t);
      ret := AfterRead(number_to_move, t, rest);
    }

    /** `yy_get_next_buffer` behind the read. */
    method AfterRead(number_to_move: nat, ghost t: seq<char>, ghost rest: seq<char>) returns (ret: Refill)
      requires SoundRules(dfa, rules, starts) && yy_start in starts
      requires Loaded(t, rest) && |t| == number_to_move && buffer_n_chars == yy_n_chars && NoNul(t) && NoNul(rest)
      requires !buffer_status.New? && (buffer_status.EofPending? ==> rest == [])
      modifies this, yy_ch_buf
      ensures Sized() && Plain() && yytext_ptr == 0 && unchanged(`yy_start, `yy_ch_buf)
      ensures Refilled(ret, t, rest)
    {
      hide Sound, SoundRules, NoNul, Plain, Refilled;
      RefilledText(t, rest, yy_n_chars);
      ghost var n := yy_n_chars;
      if yy_n_chars == 0 {
        if number_to_move == 0 {
          ret := EndOfFile;
          YyRestart();
        } else {
          ret := LastMatch;
          buffer_status := EofPending;
        }
      } else {
        ret := ContinueScan;
      }
      if yy_n_chars + number_to_move > yy_buf_size {
        assert false;  // the overflow branch
      }
      CloseText(number_to_move, t + rest[..n]);
      RefillDone(ret, t, rest, n);
    }

    lemma RefillDone(ret: Refill, t: seq<char>, rest: seq<char>, n: nat)
      requires n <= |rest| && file == rest[n..] && (n == 0 ==> rest == [])
      requires yy_n_chars <= yy_ch_buf.Length && yy_ch_buf[..yy_n_chars] == t + rest[..n]
      requires if n > 0 then ret == ContinueScan else if t == [] then ret == EndOfFile else ret == LastMatch
      requires ret == EndOfFile ==> yy_c_buf_p == 0 && yy_hold_char == NUL
      ensures Refilled(ret, t, rest)
    {
      assert n == 0 ==> t + rest[..n] == t && rest[n..] == rest;
      assert t + rest[..n] + rest[n..] == t + rest;
    }

    /** YY_DO_BEFORE_ACTION: the token is `yytext_ptr..cp`; hold its successor back. */
    method DoBeforeAction(bp: nat, cp: nat)
      requires bp <= cp < yy_ch_buf.Length
      modifies `yytext_ptr, `yy_c_buf_p, `yy_hold_char, yy_ch_buf
      ensures yytext_ptr == bp && yy_c_buf_p == cp && yy_hold_char == old(yy_ch_buf[cp])
      ensures yy_ch_buf[..] == old(yy_ch_buf[..])[cp := NUL]
    {
      yytext_ptr := bp;
      yy_hold_char := yy_ch_buf[cp];
      yy_ch_buf[cp] := NUL;
      yy_c_buf_p := cp;
    }

    /**
     What one match has done with the stream `w` that was ahead: the token is its longest match and
     the rest is still pending, or the stream was empty.
     */
    ghost predicate Matched(act: int, w: seq<char>)
      reads this, yy_ch_buf
    {
      && Valid()
      && if w == [] then act == YY_STATE_EOF && Pending() == []
         else
           var n := MatchLength(dfa, yy_start, w);
           && 1 <= n <= |w| && act == dfa.accept(State(dfa, yy_start, w, n))
           && yytext_ptr <= yy_c_buf_p && yy_ch_buf[yytext_ptr..yy_c_buf_p] == w[..n] && Pending() == w[n..]
    }

    /** Scanning of `w` is over inside the text: at a stopping state or at the stream's end. */
    ghost predicate Over(bp: nat, w: seq<char>, state: int, cp: nat)
      reads this
    {
      && w != [] && bp <= cp <= yy_n_chars && cp - bp <= |w| && StopAt(dfa, yy_start, w, 0) == cp - bp
      && state == State(dfa, yy_start, w, cp - bp) && LastOk(bp, w, cp - bp)
    }

    /** Scanning of `w` has run over the end of the buffer. */
    ghost predicate OffTheEnd(bp: nat, w: seq<char>, state: int, cp: nat)
      reads this
    {
      && cp == yy_n_chars + 2 && dfa.accept(state) == 0 && ReadAll(bp, w)
      && yy_last_accepting_state == dfa.eob && yy_last_accepting_cpos == yy_n_chars + 1
    }

    /** Label yy_find_action and what follows: choose the action and set up the token. */
    method FindAction(bp: nat, state: int, cp: nat, ghost w: seq<char>) returns (act: int)
      requires Stream(bp, w) && (Over(bp, w, state, cp) || OffTheEnd(bp, w, state, cp))
      modifies `yytext_ptr, `yy_c_buf_p, `yy_hold_char, yy_ch_buf
      ensures old(Over(bp, w, state, cp)) ==> Matched(act, w) && act != YY_END_OF_BUFFER
      ensures !old(Over(bp, w, state, cp)) ==>
        && act == YY_END_OF_BUFFER && yy_c_buf_p == yy_n_chars + 1 && yytext_ptr == bp && Stream(bp, w)
        && yy_c_buf_p < yy_ch_buf.Length && yy_hold_char == yy_ch_buf[yy_c_buf_p]
    {
      hide Sound, NoNul, StopAt, Last, Over, OffTheEnd, Matched, Stream, Sized, Ended;
      ghost var over, b := Over(bp, w, state, cp), yy_ch_buf[..];
      if over {
        OverFinds(bp, w, state, cp);
      } else {
        OffFinds(bp, w, state, cp);
      }
      var end;
      act, end := YyFindAction(state, cp);
      DoBeforeAction(bp, end);
      if over {
        TokenSetUp(b, bp, w, act);
      } else {
        assert yy_ch_buf[..] == b;
        StreamStays(b, bp, w);
      }
    }

    /** The action and the end of the match are those of the longest match. */
    ghost predicate Finds(bp: nat, w: seq<char>, act: int, end: nat)
      reads `yy_start
    {
      var n := MatchLength(dfa, yy_start, w);
      && w != [] && 1 <= n <= |w| && end == bp + n
      && act == dfa.accept(State(dfa, yy_start, w, n)) && act != YY_END_OF_BUFFER
    }

    lemma OverFinds(bp: nat, w: seq<char>, state: int, cp: nat)
      requires Stream(bp, w) && Over(bp, w, state, cp)
      ensures if dfa.accept(state) != 0 then Finds(bp, w, dfa.accept(state), cp)
              else Finds(bp, w, dfa.accept(yy_last_accepting_state), yy_last_accepting_cpos)
      ensures (if dfa.accept(state) != 0 then cp else yy_last_accepting_cpos) <= yy_n_chars < yy_ch_buf.Length
      ensures Sized() && Ended(yy_ch_buf[..], yy_n_chars) && w == yy_ch_buf[bp..yy_n_chars] + file
    {
      hide Sound, NoNul, StopAt, Last, Ended;
      StreamAt(bp, w, cp);
      MatchIsLongest(dfa, starts, yy_start, w);
      OrdinaryState(dfa, starts, yy_start, w, MatchLength(dfa, yy_start, w));
    }

    lemma OffFinds(bp: nat, w: seq<char>, state: int, cp: nat)
      requires Stream(bp, w) && OffTheEnd(bp, w, state, cp)
      ensures dfa.accept(state) == 0 && dfa.accept(yy_last_accepting_state) == YY_END_OF_BUFFER
      ensures yy_last_accepting_cpos == yy_n_chars + 1 < yy_ch_buf.Length && yy_ch_buf[yy_n_chars + 1] == NUL
      ensures Sized() && Ended(yy_ch_buf[..], yy_n_chars) && w == yy_ch_buf[bp..yy_n_chars] + file && bp <= yy_n_chars
    {
      hide Sound, NoNul, Ended;
      EndOfBuffer(0);
      EndMarkers();
    }

    /** The token is set up: its text in the buffer, the character behind it held back. */
    lemma TokenSetUp(b: seq<char>, bp: nat, w: seq<char>, act: int)
      requires Sized() && |b| == yy_ch_buf.Length && Ended(b, yy_n_chars)
      requires yytext_ptr == bp <= yy_c_buf_p <= yy_n_chars < |b| && w == b[bp..yy_n_chars] + file
      requires yy_ch_buf[..] == b[yy_c_buf_p := NUL] && yy_hold_char == b[yy_c_buf_p] && Finds(bp, w, act, yy_c_buf_p)
      ensures Matched(act, w)
    {
      hide Sized, Ended, MatchLength;
      var end := yy_c_buf_p;
      HeldText(b, bp, end, yy_n_chars, file, w, end - bp);
      assert yy_ch_buf[..][end := b[end]] == b;
      assert yy_ch_buf[bp..end] == yy_ch_buf[..][bp..end];
    }

    lemma StreamStays(b: seq<char>, bp: nat, w: seq<char>)
      requires yy_ch_buf[..] == b && Sized() && Ended(b, yy_n_chars) && bp <= yy_n_chars < |b|
      requires w == b[bp..yy_n_chars] + file
      ensures Stream(bp, w)
    {
      hide Sized, Ended;
    }

    /** What a stopped match is, in terms of the whole stream. */
    lemma StoppedIsOver(bp: nat, w: seq<char>, state: int, cp: nat)
      requires Stream(bp, w) && Stopped(bp, w, state, cp)
      ensures Over(bp, w, state, cp) || OffTheEnd(bp, w, state, cp)
      ensures Over(bp, w, state, cp) <==> cp <= yy_n_chars
    {
      if cp <= yy_n_chars {
        StreamAt(bp, w, cp);
        StopIs(dfa, yy_start, w, 0, cp - bp);
        assert State(dfa, yy_start, w, 0) == yy_start;
      }
    }

    /** The YY_END_OF_BUFFER action up to its inner switch: put the held character back and refill. */
    method ReadMore(ghost w: seq<char>) returns (refill: Refill)
      requires Stream(yytext_ptr, w) && yy_c_buf_p == yy_n_chars + 1 < yy_ch_buf.Length
      requires yy_hold_char == yy_ch_buf[yy_c_buf_p]
      modifies this, yy_ch_buf
      ensures yy_ch_buf == old(yy_ch_buf) || fresh(yy_ch_buf)
      ensures yy_start == old(yy_start) && yytext_ptr == 0 && Stream(0, w)
      ensures match refill
              case EndOfFile => w == [] == file && yy_n_chars == 0 && yy_hold_char == NUL
              case LastMatch => w != [] && file == [] && yy_n_chars == |w| == old(yy_n_chars - yytext_ptr)
              case ContinueScan => |file| < |old(file)| && old(yy_n_chars - yytext_ptr) < yy_n_chars
    {
      hide Sound, SoundRules, NoNul, Plain;
      yy_ch_buf[yy_c_buf_p] := yy_hold_char;
      assert yy_ch_buf[..] == old(yy_ch_buf[..]);
      SamePlain(old(yy_ch_buf[..]));
      if buffer_status == New {
        yy_n_chars := buffer_n_chars;
        buffer_status := Normal;
      }
      ghost var t, rest := yy_ch_buf[yytext_ptr..yy_n_chars], file;
      refill := YyGetNextBuffer();
      assert yy_ch_buf[0..yy_n_chars] == yy_ch_buf[..yy_n_chars];
    }

    /**
     The YY_END_OF_BUFFER action. It reads on (`act` stays YY_END_OF_BUFFER and matching goes on from
     `state` at `yy_c_buf_p`), or it ends the file, or it accepts what there is at the end of file.
     */
    method EndOfBufferAction(ghost w: seq<char>) returns (act: int, state: int)
      requires Stream(yytext_ptr, w) && yy_c_buf_p == yy_n_chars + 1 < yy_ch_buf.Length
      requires yy_hold_char == yy_ch_buf[yy_c_buf_p] && ReadAll(yytext_ptr, w)
      modifies this, yy_ch_buf
      ensures yy_ch_buf == old(yy_ch_buf) || fresh(yy_ch_buf)
      ensures yy_start == old(yy_start)
      ensures act != YY_END_OF_BUFFER ==> Matched(act, w)
      ensures act == YY_END_OF_BUFFER ==>
        && |file| < |old(file)| && Stream(yytext_ptr, w) && yy_c_buf_p <= yy_n_chars
        && Reading(yytext_ptr, w, state, yy_c_buf_p)
    {
      hide Sound, SoundRules, NoNul, Plain, Sized, Matched, Ended, Stream, ReadAll, Reading, Over, OffTheEnd, LastOk;
      ghost var n := yy_n_chars - yytext_ptr;
      AllRead(yytext_ptr, w);
      var amount := yy_c_buf_p - yytext_ptr - 1;
      var refill := ReadMore(w);
      StreamBounds(0, w);
      state := yy_start;
      if refill == EndOfFile {
        yy_c_buf_p := yytext_ptr;
        act := YY_STATE_EOF;
        NothingLeft(w);
      } else if refill == ContinueScan {
        yy_c_buf_p := yytext_ptr + amount;
        state := YyGetPreviousState(w);
        GoesOnReading(w, state);
        act := YY_END_OF_BUFFER;
      } else {
        yy_c_buf_p := yy_n_chars;
        state := YyGetPreviousState(w);
        OverAtEnd(w, state);
        act := FindAction(yytext_ptr, state, yy_c_buf_p, w);
      }
    }

    lemma AllRead(bp: nat, w: seq<char>)
      requires Stream(bp, w) && ReadAll(bp, w)
      ensures var n := yy_n_chars - bp;
        0 <= n <= |w| && NoStop(dfa, yy_start, w, n) && !dfa.stop(State(dfa, yy_start, w, n))
    {
      hide Sized, Plain, NoStop;
    }

    lemma StreamBounds(bp: nat, w: seq<char>)
      requires Stream(bp, w)
      ensures bp <= yy_n_chars <= bp + |w| && yy_n_chars < yy_ch_buf.Length
    {
      hide SoundRules, NoNul, Plain;
    }

    /** Behind a refill matching goes on where it was. */
    lemma GoesOnReading(w: seq<char>, state: int)
      requires yytext_ptr <= yy_c_buf_p <= yy_n_chars && yy_c_buf_p - yytext_ptr <= |w|
      requires var k := yy_c_buf_p - yytext_ptr;
        && NoStop(dfa, yy_start, w, k) && !dfa.stop(State(dfa, yy_start, w, k))
        && state == State(dfa, yy_start, w, k) && LastOk(yytext_ptr, w, k)
      ensures Reading(yytext_ptr, w, state, yy_c_buf_p)
    {
      hide LastOk, NoStop;
    }

    /** At the end of the file the match is over. */
    lemma OverAtEnd(w: seq<char>, state: int)
      requires w != [] && yytext_ptr <= yy_c_buf_p == yy_n_chars && yy_c_buf_p - yytext_ptr == |w|
      requires NoStop(dfa, yy_start, w, |w|)
      requires state == State(dfa, yy_start, w, |w|) && LastOk(yytext_ptr, w, |w|)
      ensures Over(yytext_ptr, w, state, yy_c_buf_p)
    {
      hide LastOk, NoStop;
      StopIs(dfa, yy_start, w, 0, |w|);
    }

    lemma NothingLeft(w: seq<char>)
      requires Stream(0, w) && w == [] == file && yy_n_chars == 0 == yy_c_buf_p && yy_hold_char == NUL
      ensures Matched(YY_STATE_EOF, w)
    {
      assert yy_ch_buf[..][0 := NUL] == yy_ch_buf[..];
    }

    lemma SamePlain(b: seq<char>)
      requires yy_ch_buf[..] == b
      ensures Plain() <==> Ended(b, yy_n_chars)
    {}

    /** One pass of `yylex`'s outer loop: one match, over as many refills as it takes. */
    method MatchOne() returns (act: int)
      requires Valid()
      modifies this, yy_ch_buf
      ensures Matched(act, old(Pending())) && yy_start == old(yy_start)
      ensures yy_ch_buf == old(yy_ch_buf) || fresh(yy_ch_buf)
    {
      hide Sound, SoundRules, NoNul, Plain, Matched, Ended, Stopped, Over, OffTheEnd, Reading, ReadAll;
      ghost var w := Pending();
      PutBack(w);
      hide Stream;
      var cp: nat := yy_c_buf_p;
      var bp: nat, state := cp, yy_start;
      BeginMatch(bp, w);
      while true
        invariant yy_start == old(yy_start) && (yy_ch_buf == old(yy_ch_buf) || fresh(yy_ch_buf))
        invariant Stream(bp, w) && cp <= yy_n_chars && Reading(bp, w, state, cp)
        decreases |file|
      {
        state, cp := YyMatch(bp, state, cp, w);
        StoppedIsOver(bp, w, state, cp);
        OverOrNot(bp, w, state, cp);
        act := FindAction(bp, state, cp, w);
        if act != YY_END_OF_BUFFER { return; }
        act, state := EndOfBufferAction(w);
        if act != YY_END_OF_BUFFER { return; }
        bp, cp := yytext_ptr, yy_c_buf_p;
      }
    }

    /** `*yy_cp = yy_hold_char`. */
    method PutBack(ghost w: seq<char>)
      requires Valid() && w == Pending()
      modifies yy_ch_buf
      ensures Stream(yy_c_buf_p, w)
    {
      hide SoundRules, NoNul, Ended;
      Restoring();
      yy_ch_buf[yy_c_buf_p] := yy_hold_char;
      SamePlain(old(Restored()));
    }

    lemma OverOrNot(bp: nat, w: seq<char>, state: int, cp: nat)
      ensures !Over(bp, w, state, cp) && OffTheEnd(bp, w, state, cp) ==> ReadAll(bp, w)
    {}

    lemma Restoring()
      requires Valid()
      ensures yy_c_buf_p < yy_ch_buf.Length && Restored() == yy_ch_buf[..][yy_c_buf_p := yy_hold_char]
      ensures Sized() && Ended(Restored(), yy_n_chars) && yy_c_buf_p <= yy_n_chars
    {}

    lemma BeginMatch(bp: nat, w: seq<char>)
      requires Stream(bp, w)
      ensures Reading(bp, w, yy_start, bp) && bp <= yy_n_chars
    {}

    /** One match and the action of its rule, which may change the start state. */
    method MatchAndAct() returns (token: Lexeme)
      requires Valid()
      modifies this, yy_ch_buf
      ensures Valid() && (yy_ch_buf == old(yy_ch_buf) || fresh(yy_ch_buf))
      ensures token == old(Head(dfa, yy_start, Pending()))
      ensures yy_start == rules.begin(token.act, old(yy_start)) && Pending() == old(Pending())[|token.text|..]
    {
      hide Sound, NoNul, Ended, Restored, Pending, MatchLength;
      ghost var w := Pending();
      PendingScannable();
      if w != [] { MatchIsLongest(dfa, starts, yy_start, w); }
      NoEofAction(State(dfa, yy_start, w, if w == [] then 0 else MatchLength(dfa, yy_start, w)));
      var act := MatchOne();
      assert Matched(act, w);
      var text := [];
      if act != YY_STATE_EOF { text := yy_ch_buf[yytext_ptr..yy_c_buf_p]; }
      token := Lexeme(act, text);
      assert token == Head(dfa, yy_start, w) && Pending() == w[|text|..];
      BeginStays(act);
      SetStart(rules.begin(act, yy_start));
    }

    /** The BEGIN macro. */
    method SetStart(start: int)
      requires Valid() && start in starts
      modifies `yy_start
      ensures Valid() && yy_start == start && Pending() == old(Pending())
    {
      hide SoundRules, NoNul;
      yy_start := start;
    }

    lemma NoEofAction(s: int)
      requires Sized()
      ensures dfa.accept(s) != YY_STATE_EOF
    {}

    lemma BeginStays(act: int)
      requires Sized()
      ensures rules.begin(act, yy_start) in starts
    {
      BeginInStarts(dfa, rules, starts, act, yy_start);
    }

    /**
     `yylex`: matches until a rule returns a token. However the file is cut into reads, and whatever
     the buffer size, the token is the next one of the whole stream and the rest stays ahead.
     */
    method YyLex() returns (token: Lexeme)
      requires Valid()
      modifies this, yy_ch_buf
      ensures Valid() && (yy_ch_buf == old(yy_ch_buf) || fresh(yy_ch_buf))
      ensures old(Scannable(dfa, rules, starts, yy_start, Pending()))
      ensures (token, yy_start, Pending()) == old(NextToken(dfa, rules, starts, yy_start, Pending()))
    {
      hide Sound, NoNul, Sized, Ended, Head, Restored, Pending, Valid;
      PendingScannable();
      while true
        invariant Valid() && (yy_ch_buf == old(yy_ch_buf) || fresh(yy_ch_buf))
        invariant Scannable(dfa, rules, starts, yy_start, Pending())
        invariant NextToken(dfa, rules, starts, yy_start, Pending())
          == old(NextToken(dfa, rules, starts, yy_start, Pending()))
        decreases |Pending()|
      {
        HeadShrinks(dfa, rules, starts, yy_start, Pending());
        token := MatchAndAct();
        if rules.emits(token.act) { return; }
      }
    }

    /**
     All tokens up to the end of the file: a function of the characters alone, the same for every
     buffer size and every way of cutting the file into reads.
     */
    method ScanAll() returns (tokens: seq<Lexeme>)
      requires Valid()
      modifies this, yy_ch_buf
      ensures old(Scannable(dfa, rules, starts, yy_start, Pending()))
      ensures tokens == old(Tokens(dfa, rules, starts, yy_start, Pending()))
    {
      hide Scannable, Tokens, NextToken, Restored, Pending, Valid;
      tokens := [];
      PendingScannable();
      while true
        invariant Valid() && (yy_ch_buf == old(yy_ch_buf) || fresh(yy_ch_buf))
        invariant Scannable(dfa, rules, starts, yy_start, Pending())
        invariant tokens + Tokens(dfa, rules, starts, yy_start, Pending()) ==
                  old(Tokens(dfa, rules, starts, yy_start, Pending()))
        decreases |Pending()|
      {
        TokensStep(dfa, rules, starts, yy_start, Pending());
        var token := YyLex();
        tokens := tokens + [token];
        if token.act == YY_STATE_EOF { return; }
      }
    }

    lemma PendingScannable()
      requires Valid()
      ensures Scannable(dfa, rules, starts, yy_start, Pending())
    {
      NoNulParts(Restored()[..yy_n_chars], yy_c_buf_p, file);
      assert Restored()[..yy_n_chars][yy_c_buf_p..] == Restored()[yy_c_buf_p..yy_n_chars];
    }

    /** The buffer at a position at or before its end, as seen by the automaton. */
    lemma StreamAt(bp: nat, w: seq<char>, cp: nat)
      requires Stream(bp, w) && bp <= cp <= yy_n_chars
      ensures cp - bp <= |w| && NoNul(w)
      ensures cp < yy_n_chars ==> cp - bp < |w| && yy_ch_buf[cp] == w[cp - bp] && w[cp - bp] != NUL
      ensures cp == yy_n_chars ==> yy_ch_buf[cp] == NUL
      ensures NoStop(dfa, yy_start, w, cp - bp) ==> State(dfa, yy_start, w, cp - bp) != dfa.eob
    {
      assert NoNul(w) by {
        NoNulParts(yy_ch_buf[..yy_n_chars], bp, file);
        assert yy_ch_buf[..yy_n_chars][bp..] == yy_ch_buf[bp..yy_n_chars];
      }
      if NoStop(dfa, yy_start, w, cp - bp) { OrdinaryState(dfa, starts, yy_start, w, cp - bp); }
      if cp < yy_n_chars { assert w[cp - bp] in w; }
    }
  }

  /** Holding a character back splits the stream at it. */
  lemma HeldText(b: seq<char>, bp: nat, cp: nat, n: nat, rest: seq<char>, w: seq<char>, k: nat)
    requires bp <= cp <= n < |b| && w == b[bp..n] + rest && k == cp - bp
    ensures b[cp := NUL][bp..cp] == w[..k] && b[cp..n] + rest == w[k..]
  {}

  lemma RefilledText(t: seq<char>, rest: seq<char>, n: nat)
    requires NoNul(t) && NoNul(rest) && n <= |rest|
    ensures NoNul(t + rest[..n]) && NoNul(rest[n..]) && (t + rest[..n]) + rest[n..] == t + rest
  {}

  lemma SliceNoNul(a: seq<char>, i: nat)
    requires NoNul(a) && i <= |a|
    ensures NoNul(a[i..])
  {}

  lemma NoNulParts(a: seq<char>, i: nat, b: seq<char>)
    requires NoNul(a) && NoNul(b) && i <= |a|
    ensures NoNul(a[i..] + b)
  {}

  /** Text of `n` characters followed by the two end markers. */
  ghost predicate Ended(b: seq<char>, n: nat) {
    n + 1 < |b| && NoNul(b[..n]) && b[n] == NUL && b[n + 1] == NUL
  }
}
