/** The string interner: one growing buffer of NUL-terminated names, and a map from names to
    their positions. */
module Interner {

  const NUL: char := '\0'

  /** The buffer holds s and its terminator at pos. */
  predicate At(text: string, pos: nat, s: string) {
    pos + |s| < |text| && text[pos..pos + |s|] == s && text[pos + |s|] == NUL
  }

  /** The name a position stands for: up to the next NUL. */
  function StringAt(text: string, pos: nat): string
    requires pos <= |text|
    decreases |text| - pos
  {
    if pos == |text| || text[pos] == NUL then [] else [text[pos]] + StringAt(text, pos + 1)
  }

  lemma {:induction false} StringIs(text: string, pos: nat, s: string)
    requires At(text, pos, s) && NUL !in s
    ensures StringAt(text, pos) == s
    decreases |s|
  {
    if s != [] {
      assert text[pos] == text[pos..pos + |s|][0] == s[0];
      assert s[0] in s;
      assert text[pos + 1..pos + |s|] == text[pos..pos + |s|][1..] == s[1..];
      StringIs(text, pos + 1, s[1..]);
    }
  }

  /** Appending to the buffer changes no earlier name. */
  lemma Stays(text: string, more: string, pos: nat, s: string)
    requires At(text, pos, s)
    ensures At(text + more, pos, s)
  {
    assert (text + more)[pos..pos + |s|] == text[pos..pos + |s|];
  }

  class SymNames {
    var buffer: array<char>
    var size: nat
    var name2pos: map<string, nat>

    ghost predicate Valid()
      reads this, buffer
    {
      && size <= buffer.Length
      && forall s | s in name2pos :: NUL !in s && At(buffer[..size], name2pos[s], s)
    }

    ghost function Text(): string
      reads this, buffer
      requires size <= buffer.Length
    {
      buffer[..size]
    }

    constructor ()
      ensures Valid() && fresh(buffer) && Text() == [] && name2pos == map[]
    {
      buffer := new char[1024];
      size := 0;
      name2pos := map[];
    }

    /** Makes room; the text stays. */
    method Reserve(capacity: nat)
      requires size <= buffer.Length
      modifies this`buffer
      ensures size <= buffer.Length && Text() == old(Text()) && buffer.Length >= capacity
      ensures buffer == old(buffer) || fresh(buffer)
    {
      if capacity <= buffer.Length {
        return;
      }
      var grown := new char[capacity];
      for i := 0 to size
        invariant buffer == old(buffer) && buffer[..] == old(buffer[..])
        invariant size <= buffer.Length && grown.Length == capacity && fresh(grown)
        invariant grown[..i] == buffer[..i]
      {
        grown[i] := buffer[i];
      }
      ghost var before := buffer[..size];
      buffer := grown;
      assert buffer[..size] == before;
    }

    method Insert(s: string) returns (pos: nat)
      requires Valid() && NUL !in s && s !in name2pos
      modifies this, buffer
      ensures Valid() && (buffer == old(buffer) || fresh(buffer))
      ensures pos == old(size) && Text() == old(Text()) + s + [NUL]
      ensures name2pos == old(name2pos)[s := pos]
    {
      pos := Append(s);
      name2pos := name2pos[s := pos];
      NamesMore(old(Text()), old(name2pos), s);
    }

    /** The characters and the terminator, in new room if they do not fit. */
    method Append(s: string) returns (pos: nat)
      requires size <= buffer.Length
      modifies this`buffer, this`size, buffer
      ensures size <= buffer.Length && (buffer == old(buffer) || fresh(buffer))
      ensures pos == old(size) && Text() == old(Text()) + s + [NUL]
    {
      var tsize := size + |s| + 1;
      if tsize > buffer.Length {
        Reserve(tsize * 2);
      }
      ghost var before := Text();
      for i := 0 to |s|
        invariant size == old(size) && buffer.Length >= tsize && (buffer == old(buffer) || fresh(buffer))
        invariant buffer[..size + i] == before + s[..i]
      {
        buffer[size + i] := s[i];
      }
      assert s[..|s|] == s;
      buffer[size + |s|] := NUL;
      pos := size;
      size := tsize;
      assert buffer[..size] == before + s + [NUL];
    }

    /** The position of a name, inserted if it is new.  Reading it back gives the name, and no
        earlier name moves or changes. */
    method CheckInsert(s: string) returns (pos: nat)
      requires Valid() && NUL !in s
      modifies this, buffer
      ensures Valid() && (buffer == old(buffer) || fresh(buffer))
      ensures pos <= |Text()| && StringAt(Text(), pos) == s
      ensures old(Text()) <= Text() && name2pos == old(name2pos)[s := pos]
      ensures s in old(name2pos) ==> pos == old(name2pos)[s] && Text() == old(Text())
    {
      if s in name2pos {
        pos := name2pos[s];
        assert name2pos == name2pos[s := pos];
      } else {
        pos := Insert(s);
      }
      StringIs(Text(), pos, s);
    }

    /** Looks a name up without inserting it: -1 exactly for names that are not there, and a
        position that gives back the name for the others. */
    method Check(s: string) returns (pos: int)
      requires Valid()
      ensures pos == -1 || 0 <= pos <= |Text()|
      ensures pos >= 0 <==> s in name2pos
      ensures pos >= 0 ==> StringAt(Text(), pos) == s && forall t | t in name2pos :: name2pos[t] == pos <==> t == s
    {
      pos := if s in name2pos then name2pos[s] else -1;
      if s in name2pos {
        forall t | t in name2pos
          ensures name2pos[t] <= |Text()| && StringAt(Text(), name2pos[t]) == t
        {
          StringIs(Text(), name2pos[t], t);
        }
      }
    }

    /** Reads characters up to the terminator. */
    method Get(pos: nat) returns (s: string)
      requires Valid() && pos <= size
      ensures s == StringAt(Text(), pos)
    {
      s := [];
      var i := pos;
      while i < size && buffer[i] != NUL
        invariant pos <= i <= size
        invariant s + StringAt(Text(), i) == StringAt(Text(), pos)
      {
        s := s + [buffer[i]];
        i := i + 1;
      }
    }
  }

  /** Map and buffer agree again. */
  lemma NamesMore(text: string, names: map<string, nat>, s: string)
    requires forall t | t in names :: NUL !in t && At(text, names[t], t)
    requires NUL !in s
    ensures forall t | t in names[s := |text|] :: NUL !in t && At(text + s + [NUL], names[s := |text|][t], t)
  {
    Placed(text, s);
    forall t | t in names && t != s
      ensures At(text + s + [NUL], names[t], t)
    {
      Stays(text, s + [NUL], names[t], t);
      assert text + (s + [NUL]) == text + s + [NUL];
    }
  }

  lemma Placed(text: string, s: string)
    ensures At(text + s + [NUL], |text|, s)
  {
  }

  /** Names and positions correspond one to one: equal positions only for equal names, and
      every position gives back its name. */
  lemma OneToOne(n: SymNames, s: string, t: string)
    requires n.Valid() && s in n.name2pos && t in n.name2pos
    ensures n.name2pos[s] <= |n.Text()| && StringAt(n.Text(), n.name2pos[s]) == s
    ensures n.name2pos[s] == n.name2pos[t] <==> s == t
  {
    StringIs(n.Text(), n.name2pos[s], s);
    StringIs(n.Text(), n.name2pos[t], t);
  }

  /** A position handed out earlier still gives the same name after any later growth. */
  lemma StillSame(text: string, later: string, pos: nat, s: string)
    requires text <= later && At(text, pos, s) && NUL !in s
    ensures StringAt(later, pos) == s
  {
    assert later == text + later[|text|..];
    Stays(text, later[|text|..], pos, s);
    StringIs(later, pos, s);
  }
}
