/** `filepath.Clean` as the library runs it: one pass over the text with an output buffer that is
    cut back at `..`. The loop computes the same text as the component stack of `UnixPath.Clean`. */
module PathLoop {
  import opened UnixPath

  /** The kept components: some leading `..` (relative paths only), then plain ones. */
  ghost predicate Shape(rooted: bool, stack: seq<string>, ups: nat) {
    && ups <= |stack|
    && (rooted ==> ups == 0)
    && (forall i :: 0 <= i < ups ==> stack[i] == "..")
    && (forall i :: ups <= i < |stack| ==> Plain(stack[i]))
  }

  /** What remains to be walked once the text before `r` has been turned into `stack`. */
  ghost function Remaining(path: string, r: nat, rooted: bool, stack: seq<string>): seq<string>
    requires r <= |path|
  {
    Walk(rooted, stack, Split(path[r..]))
  }

  lemma SkipSlash(path: string, r: nat, rooted: bool, stack: seq<string>)
    requires r < |path| && path[r] == '/'
    ensures Remaining(path, r, rooted, stack) == Remaining(path, r + 1, rooted, stack)
  {
    assert path[r..] == ['/'] + path[r + 1..];
    SplitCons('/', path[r + 1..]);
    assert Split(path[r..])[1..] == Split(path[r + 1..]);
  }

  lemma TakeComponent(path: string, r: nat, k: nat, rooted: bool, stack: seq<string>)
    requires r < k <= |path| && '/' !in path[r..k] && (k == |path| || path[k] == '/')
    ensures Remaining(path, r, rooted, stack) == Remaining(path, k, rooted, Push(rooted, stack, path[r..k]))
  {
    var c := path[r..k];
    SplitComponent(c);
    if k == |path| {
      assert c == path[r..] && path[k..] == "";
      assert Walk(rooted, Push(rooted, stack, c), [""]) == Push(rooted, stack, c);
    } else {
      assert path[r..] == c + "/" + path[k + 1..];
      SplitAtSlash(c, path[k + 1..]);
      assert Split(path[r..])[1..] == Split(path[k + 1..]);
      SkipSlash(path, k, rooted, Push(rooted, stack, c));
    }
  }

  lemma RenderPush(rooted: bool, stack: seq<string>, c: string)
    ensures Render(rooted, stack + [c]) == Render(rooted, stack) + (if stack == [] then "" else "/") + c
  {
    JoinAppend(stack, c);
  }

  lemma {:induction false} RenderGrows(rooted: bool, stack: seq<string>, k: nat)
    requires k < |stack| && forall c :: c in stack ==> c != ""
    ensures |Render(rooted, stack[..k])| < |Render(rooted, stack)|
    decreases |stack|
  {
    var init, last := stack[..|stack| - 1], stack[|stack| - 1];
    assert stack == init + [last] && last in stack;
    RenderPush(rooted, init, last);
    if k < |init| {
      assert forall c :: c in init ==> c in stack;
      assert init[..k] == stack[..k];
      RenderGrows(rooted, init, k);
    } else {
      assert stack[..k] == init;
    }
  }

  /** The buffer holds nothing beyond the leading slash exactly when no component is kept. */
  lemma RenderStart(rooted: bool, stack: seq<string>, ups: nat)
    requires Shape(rooted, stack, ups)
    ensures stack == [] <==> |Render(rooted, stack)| == if rooted then 1 else 0
    ensures |stack| > ups <==> |Render(rooted, stack)| > |Render(rooted, stack[..ups])|
  {
    assert forall i :: 0 <= i < |stack| ==> stack[i] != "";
    if stack != [] {
      RenderGrows(rooted, stack, 0);
    }
    if |stack| > ups {
      RenderGrows(rooted, stack, ups);
    } else {
      assert stack[..ups] == stack;
    }
  }

  lemma TakeDots(path: string, r: nat, k: nat, rooted: bool, stack: seq<string>)
    requires 1 <= k <= 2 && r + k <= |path| && path[r] == '.' && path[r + k - 1] == '.'
    requires r + k == |path| || path[r + k] == '/'
    ensures Remaining(path, r, rooted, stack)
         == Remaining(path, r + k, rooted, if k == 1 then stack else Push(rooted, stack, ".."))
  {
    assert path[r..r + k] == if k == 1 then "." else "..";
    TakeComponent(path, r, r + k, rooted, stack);
  }

  /** What the name branch copies is neither empty nor one of the special components. */
  lemma TakeName(path: string, from: nat, r: nat, rooted: bool, stack: seq<string>, ups: nat)
    requires Shape(rooted, stack, ups)
    requires from < r <= |path| && '/' !in path[from..r] && (r == |path| || path[r] == '/')
    requires !(path[from] == '.' && (from + 1 == |path| || path[from + 1] == '/'))
    requires !(path[from] == '.' && from + 1 < |path| && path[from + 1] == '.'
               && (from + 2 == |path| || path[from + 2] == '/'))
    ensures Remaining(path, from, rooted, stack) == Remaining(path, r, rooted, stack + [path[from..r]])
    ensures Shape(rooted, stack + [path[from..r]], ups) && (stack + [path[from..r]])[..ups] == stack[..ups]
  {
    var c := path[from..r];
    assert c[0] == path[from];
    if |c| == 2 {
      assert c[1] == path[from + 1];
    }
    TakeComponent(path, from, r, rooted, stack);
    assert (stack + [c])[..ups] == stack[..ups];
  }

  /** The buffer renders the kept components; `dotdot` marks the end of the leading `..` part. */
  ghost predicate Buffered(out: string, dotdot: nat, rooted: bool, stack: seq<string>, ups: nat) {
    Shape(rooted, stack, ups) && out == Render(rooted, stack) && dotdot == |Render(rooted, stack[..ups])|
  }

  method CleanLoop(path: string) returns (cleaned: string)
    ensures cleaned == Clean(path)
  {
    if path == "" {
      assert Components("") == Walk(false, [], [""]) == [];
      return ".";
    }
    var rooted := path[0] == '/';
    var out, dotdot, r: nat := "", 0, 0;
    ghost var stack: seq<string>, ups: nat := [], 0;
    assert path[0..] == path;
    if rooted {
      out, dotdot, r := "/", 1, 1;
      SkipSlash(path, 0, true, []);
    }
    while r < |path|
      invariant r <= |path| && Buffered(out, dotdot, rooted, stack, ups)
      invariant Components(path) == Remaining(path, r, rooted, stack)
    {
      if path[r] == '/' {
        SkipSlash(path, r, rooted, stack);
        r := r + 1;
      } else if path[r] == '.' && (r + 1 == |path| || path[r + 1] == '/') {
        TakeDots(path, r, 1, rooted, stack);
        r := r + 1;
      } else {
        out, dotdot, r, stack, ups := Component(out, dotdot, path, r, rooted, stack, ups);
      }
    }
    EndOfPath(path, rooted, stack, ups);
    if out == "" {
      return ".";
    }
    cleaned := out;
  }

  lemma EndOfPath(path: string, rooted: bool, stack: seq<string>, ups: nat)
    requires Shape(rooted, stack, ups)
    ensures Remaining(path, |path|, rooted, stack) == stack
    ensures Render(rooted, stack) == "" <==> !rooted && stack == []
  {
    assert path[|path|..] == "" && Walk(rooted, stack, [""]) == stack;
    RenderStart(rooted, stack, ups);
  }

  /** A component other than `.`: either `..` or a name. */
  method Component(out: string, dotdot: nat, path: string, r: nat, rooted: bool, ghost stack: seq<string>, ghost ups: nat)
      returns (out': string, dotdot': nat, r': nat, ghost kept: seq<string>, ghost ups': nat)
    requires Buffered(out, dotdot, rooted, stack, ups) && r < |path| && path[r] != '/'
    requires path[r] == '.' ==> r + 1 < |path| && path[r + 1] != '/'
    ensures r < r' <= |path| && Buffered(out', dotdot', rooted, kept, ups')
    ensures Remaining(path, r', rooted, kept) == Remaining(path, r, rooted, stack)
  {
    if path[r] == '.' && path[r + 1] == '.' && (r + 2 == |path| || path[r + 2] == '/') {
      TakeDots(path, r, 2, rooted, stack);
      out', dotdot', kept, ups' := Up(out, dotdot, rooted, stack, ups);
      r' := r + 2;
    } else {
      out', r', kept := Named(out, dotdot, path, r, rooted, stack, ups);
      dotdot', ups' := dotdot, ups;
    }
  }

  method Named(out: string, ghost dotdot: nat, path: string, r: nat, rooted: bool, ghost stack: seq<string>, ghost ups: nat)
      returns (out': string, r': nat, ghost kept: seq<string>)
    requires Buffered(out, dotdot, rooted, stack, ups) && r < |path| && path[r] != '/'
    requires path[r] == '.' ==> r + 1 < |path| && path[r + 1] != '/'
    requires !(path[r] == '.' && path[r + 1] == '.' && (r + 2 == |path| || path[r + 2] == '/'))
    ensures r < r' <= |path| && Buffered(out', dotdot, rooted, kept, ups)
    ensures Remaining(path, r', rooted, kept) == Remaining(path, r, rooted, stack)
  {
    out', r' := Name(out, dotdot, path, r, rooted, stack, ups);
    TakeName(path, r, r', rooted, stack, ups);
    kept := stack + [path[r..r']];
  }

  /** A `..` component: cut back one kept component, or keep the `..` of a relative path. */
  method Up(out: string, dotdot: nat, rooted: bool, ghost stack: seq<string>, ghost ups: nat)
      returns (cut: string, mark: nat, ghost kept: seq<string>, ghost ups': nat)
    requires Buffered(out, dotdot, rooted, stack, ups)
    ensures kept == Push(rooted, stack, "..") && Buffered(cut, mark, rooted, kept, ups')
  {
    cut, mark, kept, ups' := out, dotdot, stack, ups;
    RenderStart(rooted, stack, ups);
    if |out| > dotdot {
      cut := Backtrack(out, dotdot, rooted, stack, ups);
      kept := stack[..|stack| - 1];
      assert kept[..ups] == stack[..ups];
    } else if !rooted {
      RenderPush(false, stack, "..");
      if out != "" {
        cut := cut + "/";
      }
      cut := cut + "..";
      mark, kept, ups' := |cut|, stack + [".."], ups + 1;
      assert kept[..ups'] == kept;
    }
  }

  /** A name: a separator if something was already kept, then the characters up to the next slash. */
  method Name(out: string, ghost dotdot: nat, path: string, from: nat, rooted: bool, ghost stack: seq<string>, ghost ups: nat)
      returns (longer: string, r: nat)
    requires Buffered(out, dotdot, rooted, stack, ups) && from < |path| && path[from] != '/'
    ensures from < r <= |path| && '/' !in path[from..r] && (r == |path| || path[r] == '/')
    ensures longer == Render(rooted, stack + [path[from..r]])
  {
    longer, r := out, from;
    RenderStart(rooted, stack, ups);
    if (rooted && |out| != 1) || (!rooted && |out| != 0) {
      longer := longer + "/";
    }
    longer, r := CopyToSlash(longer, path, from);
    RenderPush(rooted, stack, path[from..r]);
  }

  method CopyToSlash(out: string, path: string, from: nat) returns (longer: string, r: nat)
    requires from < |path| && path[from] != '/'
    ensures from < r <= |path| && '/' !in path[from..r] && (r == |path| || path[r] == '/')
    ensures longer == out + path[from..r]
  {
    longer, r := out, from;
    while r < |path| && path[r] != '/'
      invariant from <= r <= |path|
      invariant longer == out + path[from..r] && '/' !in path[from..r]
    {
      assert path[from..r + 1] == path[from..r] + [path[r]];
      longer, r := longer + [path[r]], r + 1;
    }
  }

  /** Cutting the buffer back to the previous slash removes the last component. */
  method Backtrack(out: string, dotdot: nat, rooted: bool, ghost stack: seq<string>, ghost ups: nat) returns (cut: string)
    requires Buffered(out, dotdot, rooted, stack, ups) && |out| > dotdot && |stack| > ups
    ensures cut == Render(rooted, stack[..|stack| - 1])
  {
    ghost var base := Render(rooted, stack[..|stack| - 1]);
    ghost var c := stack[|stack| - 1];
    LastComponent(rooted, stack, ups);
    var v: nat := |out| - 1;
    while v > dotdot && out[v] != '/'
      invariant |base| <= v < |out| && dotdot <= v
    {
      v := v - 1;
    }
    cut := out[..v];
  }

  /** The text after the last kept component's predecessor holds no slash beyond the separator, and the
      leading `..` part ends no later than the predecessor. */
  lemma LastComponent(rooted: bool, stack: seq<string>, ups: nat)
    requires Shape(rooted, stack, ups) && |stack| > ups
    ensures var base, out := Render(rooted, stack[..|stack| - 1]), Render(rooted, stack);
      && |Render(rooted, stack[..ups])| <= |base| < |out| && base <= out
      && (forall i :: |base| < i < |out| ==> out[i] != '/')
      && (|Render(rooted, stack[..ups])| == |base| || out[|base|] == '/')
  {
    var init, c := stack[..|stack| - 1], stack[|stack| - 1];
    assert stack == init + [c];
    RenderPush(rooted, init, c);
    if ups < |init| {
      RenderGrows(rooted, init, ups);
      assert init[..ups] == stack[..ups];
    } else {
      assert init == stack[..ups];
    }
  }
}
