/** The name and content of the markdown file the download button produces. */
module Presenter {
  import opened Text
  import Form

  const Prefix := "Ficha_PuenteCultural_"
  const Extension := ".md"
  const MimeType := "text/markdown"

  /** The file handed to the browser: its name, its text and its type. */
  datatype FichaFile = FichaFile(name: string, contents: string, mimeType: string)

  /** `Ficha_PuenteCultural_${tema.replace(/\s+/g, '_')}.md`, from the topic as typed. */
  function FileName(tema: string): string {
    Prefix + Slug(tema) + Extension
  }

  /** The name starts with the fixed prefix, ends with `.md`, and holds no whitespace at all. */
  lemma FileNameShape(tema: string)
    ensures var name := FileName(tema);
      |name| >= |Prefix| + |Extension| && name[..|Prefix|] == Prefix
      && name[|name| - |Extension|..] == Extension && NoSpace(name)
  {
    SlugShape(tema);
    var name, slug := FileName(tema), Slug(tema);
    assert NoSpace(Prefix) && NoSpace(Extension);
    forall i | 0 <= i < |name| ensures !IsSpace(name[i]) {
      if i < |Prefix| {
        assert name[i] == Prefix[i];
      } else if i < |Prefix| + |slug| {
        assert name[i] == slug[i - |Prefix|];
      } else {
        assert name[i] == Extension[i - |Prefix| - |slug|];
      }
    }
  }

  /** A word followed by one space and more text: the space becomes `_`, the word stays. */
  lemma SlugWordSpace(w: string, rest: string)
    requires NoSpace(w) && w != [] && rest != [] && !IsSpace(rest[0])
    ensures Slug(w + (" " + rest)) == w + ("_" + Slug(rest))
  {
    SlugConcat(w, " " + rest);
    SlugWord(w);
    SlugConcat(" ", rest);
    SlugRun(" ");
  }

  /** The example topic, word by word. */
  lemma ExampleTopicSpelling()
    ensures "La" + (" " + ("Generación" + (" " + ("del" + (" " + "27"))))) == "La Generación del 27"
  {
  }

  /** The example file name, word by word. */
  lemma ExampleNameSpelling()
    ensures Prefix + ("La" + ("_" + ("Generación" + ("_" + ("del" + ("_" + "27"))))))  + Extension
         == "Ficha_PuenteCultural_La_Generación_del_27.md"
  {
  }

  /** The second quick topic, "La Generación del 27", gives `Ficha_PuenteCultural_La_Generación_del_27.md`. */
  lemma FileNameExample()
    ensures FileName(Form.QuickTopics[1]) == "Ficha_PuenteCultural_La_Generación_del_27.md"
  {
    var tema := Form.QuickTopics[1];
    assert tema == "La Generación del 27";
    var w1, w2, w3, w4 := "La", "Generación", "del", "27";
    assert NoSpace(w1) && NoSpace(w2) && NoSpace(w3) && NoSpace(w4);
    ExampleTopicSpelling();
    ExampleNameSpelling();
    var s3 := w3 + (" " + w4);
    var s2 := w2 + (" " + s3);
    SlugWord(w4);
    SlugWordSpace(w3, w4);
    SlugWordSpace(w2, s3);
    SlugWordSpace(w1, s2);
  }
}
