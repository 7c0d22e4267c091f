/**
 * The skills panel (src/sections/Skills.jsx): category buttons set the active
 * id, and the header and chips show the category that `find` picks for it.
 */
module Skills {
  import opened Wrappers

  datatype Category = Category(id: string, name: string, color: string, skills: seq<string>)

  const SkillCategories: seq<Category> := [
    Category("frontend", "Frontend", "from-blue-500 to-cyan-500",
      ["React", "Tailwind CSS", "Three.js", "Vite", "Next.js"]),
    Category("ai", "AI & ML", "from-purple-500 to-pink-500",
      ["Generative AI", "RAG", "Agents & Chatbots", "LangChain", "TensorFlow / PyTorch", "Vector DBs"]),
    Category("backend", "Backend", "from-green-500 to-emerald-500",
      ["Node.js", "Express", "Python", "FastAPI", "REST / Webhooks"]),
    Category("design", "Design & UX", "from-orange-500 to-red-500",
      ["Figma", "Prototyping", "Wireframing"]),
    Category("data", "Data & DevOps", "from-indigo-500 to-blue-500",
      ["PostgreSQL", "MongoDB", "Redis", "Docker"]),
    Category("cloud", "Cloud & Infra", "from-teal-500 to-green-500",
      ["AWS", "Vercel", "Netlify"])
  ]

  /** The id selected on mount. */
  const InitialCategory: string := "frontend"

  /** No two categories share an id. */
  ghost predicate DistinctIds(cats: seq<Category>)
  {
    forall i, j :: 0 <= i < j < |cats| ==> cats[i].id != cats[j].id
  }

  /** `skillCategories.find(cat => cat.id === id)`, as the index where the search stops. */
  function FindIndex(cats: seq<Category>, id: string): (r: Option<nat>)
    ensures r.Some? ==> r.value < |cats| && cats[r.value].id == id
    ensures r.Some? ==> forall j :: 0 <= j < r.value ==> cats[j].id != id
    ensures r.None? <==> forall j :: 0 <= j < |cats| ==> cats[j].id != id
  {
    if |cats| == 0 then None
    else if cats[0].id == id then Some(0)
    else
      match FindIndex(cats[1..], id)
      case None => None
      case Some(k) => Some(k + 1)
  }

  /** The six ids are pairwise distinct. */
  lemma CategoryIdsDistinct()
    ensures DistinctIds(SkillCategories)
  {
    var ids := seq(|SkillCategories|, k requires 0 <= k < |SkillCategories| => SkillCategories[k].id);
    assert ids == ["frontend", "ai", "backend", "design", "data", "cloud"];
  }

  /** With distinct ids, `find` on the id of category k returns category k itself. */
  lemma {:induction false} FindOwnId(k: nat)
    requires k < |SkillCategories|
    ensures FindIndex(SkillCategories, SkillCategories[k].id) == Some(k)
  {
    CategoryIdsDistinct();
    var r := FindIndex(SkillCategories, SkillCategories[k].id);
    assert r.Some? && r.value <= k;
    assert SkillCategories[r.value].id == SkillCategories[k].id;
  }

  /** The initial id names an existing category, the first. */
  lemma InitialCategoryExists()
    ensures FindIndex(SkillCategories, InitialCategory) == Some(0)
  {
    FindOwnId(0);
  }

  class SkillsSection {
    var activeCategory: string

    /** The invariant that makes `find` succeed: the active id belongs to some category. */
    ghost predicate Valid()
      reads this
    {
      FindIndex(SkillCategories, activeCategory).Some?
    }

    constructor ()
      ensures Valid() && activeCategory == InitialCategory
      ensures CurrentCategory() == SkillCategories[0]
    {
      activeCategory := InitialCategory;
      InitialCategoryExists();
    }

    /** `currentCategory`: never undefined, and it carries the active id. */
    function CurrentCategory(): (c: Category)
      reads this
      requires Valid()
      ensures c in SkillCategories && c.id == activeCategory
    {
      SkillCategories[FindIndex(SkillCategories, activeCategory).value]
    }

    /** The skill chips rendered under the header, in order. */
    function Chips(): (chips: seq<string>)
      reads this
      requires Valid()
      ensures exists c :: c in SkillCategories && c.id == activeCategory && chips == c.skills
    {
      CurrentCategory().skills
    }

    /** The button of category k. */
    method SelectCategory(k: nat)
      requires Valid()
      requires k < |SkillCategories|
      modifies this
      ensures Valid()
      ensures activeCategory == SkillCategories[k].id
      ensures CurrentCategory() == SkillCategories[k]
      ensures Chips() == SkillCategories[k].skills
    {
      activeCategory := SkillCategories[k].id;
      FindOwnId(k);
    }
  }
}
